/**
 * The event flags and event types of the host toolkit that the core hands to
 * its event sink (Chromium's `ui::EventFlags` and `ui::EventType`).  The
 * header that defines them is not part of this model; the flag values are
 * Chromium's single-bit values of the same era.
 */
module UiEvents {

  const EF_NONE: bv32 := 0
  const EF_CAPS_LOCK_DOWN: bv32 := 1 << 0
  const EF_SHIFT_DOWN: bv32 := 1 << 1
  const EF_CONTROL_DOWN: bv32 := 1 << 2
  const EF_ALT_DOWN: bv32 := 1 << 3
  const EF_LEFT_MOUSE_BUTTON: bv32 := 1 << 4
  const EF_MIDDLE_MOUSE_BUTTON: bv32 := 1 << 5
  const EF_RIGHT_MOUSE_BUTTON: bv32 := 1 << 6

  /** The four keyboard-modifier flags that the core ever sets. */
  const KeyboardFlags: bv32 := EF_SHIFT_DOWN | EF_CONTROL_DOWN | EF_ALT_DOWN | EF_CAPS_LOCK_DOWN

  /** `ui::EventType`, restricted to the values the core emits. */
  datatype EventType = MousePressed | MouseReleased | KeyPressed | KeyReleased
}
