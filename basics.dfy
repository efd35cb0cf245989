/**
 * Shared value types: an optional value and the C fixed-width unsigned
 * integer types the core works with.
 */
module Basics {

  /** A value that may be absent; stands for a null pointer or an undefined result. */
  datatype Option<+T> = None | Some(value: T)

  /** C `uint32_t`, `unsigned` and `xkb_keysym_t`. */
  type Uint32 = x: int | 0 <= x < 0x1_0000_0000

  /** C `int32_t`. */
  type Int32 = x: int | -0x8000_0000 <= x < 0x8000_0000

  /** Unsigned 32-bit addition, which wraps around. */
  function AddWrap(a: Uint32, b: Uint32): (r: Uint32)
    ensures r == (a + b) % 0x1_0000_0000
    ensures a + b >= 0x1_0000_0000 <==> r < a
  {
    if a + b < 0x1_0000_0000 then a + b else a + b - 0x1_0000_0000
  }

  /** Conversion of a C `int32_t` to `uint32_t` (two's complement). */
  function ToUnsigned(x: Int32): (r: Uint32)
    ensures 0 <= x ==> r == x
    ensures x < 0 ==> r == x + 0x1_0000_0000
  {
    x % 0x1_0000_0000
  }
}
