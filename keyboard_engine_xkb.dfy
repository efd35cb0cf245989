/**
 * Keysym normalisation and keyboard-modifier bookkeeping of the XKB keyboard
 * engine.  xkbcommon itself (context, keymap and state objects and their
 * queries) is not modelled: each answer it gives is a parameter.
 */
module KeyboardEngineXkb {
  import opened Basics
  import opened UiEvents
  import opened Keysyms

  // ---------------------------------------------------------------------
  // Keysym normalisation
  // ---------------------------------------------------------------------

  predicate IsAlphanumeric(k: Keysym) {
    (XKB_KEY_A <= k <= XKB_KEY_Z) || (XKB_KEY_a <= k <= XKB_KEY_z) || (XKB_KEY_0 <= k <= XKB_KEY_9)
  }

  predicate IsKeypadDigit(k: Keysym) { XKB_KEY_KP_0 <= k <= XKB_KEY_KP_9 }

  predicate IsUnicode(k: Keysym) { UcsLow < k < UcsHigh }

  predicate IsFunctionKey(k: Keysym) { XKB_KEY_F1 <= k <= XKB_KEY_F24 }

  predicate IsKeypadFunctionKey(k: Keysym) { XKB_KEY_KP_F1 <= k <= XKB_KEY_KP_F4 }

  /** The keysym falls in one of the ranges that NormalizeKey handles by arithmetic. */
  predicate InSomeRange(k: Keysym) {
    IsAlphanumeric(k) || IsKeypadDigit(k) || IsUnicode(k) || IsFunctionKey(k) || IsKeypadFunctionKey(k)
  }

  /**
   * Maps a keysym to the Ozone key code the host expects.  None is the
   * `default: break` arm, which falls off the end of the function without a
   * `return`: the caller receives an indeterminate value.
   */
  function NormalizeKey(codes: OzoneCodes, keysym: Keysym): (r: Option<Keysym>)
    ensures r.None? <==> !InSomeRange(keysym) && AliasTarget(keysym).None?
    ensures IsAlphanumeric(keysym) ==> r == Some(keysym)
  {
    if IsAlphanumeric(keysym) then
      Some(keysym)
    else if IsKeypadDigit(keysym) then
      Some(XKB_KEY_0 + (keysym - XKB_KEY_KP_0))
    else if IsUnicode(keysym) then
      Some(keysym - UcsOffset)
    else if IsFunctionKey(keysym) then
      Some(AddWrap(codes(ActionF1), keysym - XKB_KEY_F1))
    else if IsKeypadFunctionKey(keysym) then
      Some(AddWrap(codes(ActionF1), keysym - XKB_KEY_KP_F1))
    else
      match AliasTarget(keysym)
      case Some(name) => Some(codes(name))
      case None => None
  }

  /** A normalised keysym, or the given indeterminate value where normalisation has no result. */
  function NormalizeOr(codes: OzoneCodes, keysym: Keysym, indeterminate: Keysym): Keysym
  {
    match NormalizeKey(codes, keysym)
    case Some(k) => k
    case None => indeterminate
  }

  /** Keypad digits become the plain digits '0'..'9', in order. */
  lemma KeypadDigitIsDigit(codes: OzoneCodes, k: Keysym)
    requires IsKeypadDigit(k)
    ensures NormalizeKey(codes, k) == Some(XKB_KEY_0 + (k - XKB_KEY_KP_0))
    ensures XKB_KEY_0 <= NormalizeKey(codes, k).value <= XKB_KEY_9
    ensures NormalizeKey(codes, k) == NormalizeKey(codes, NormalizeKey(codes, k).value)
  {
  }

  /** A Unicode keysym becomes its code point; both range bounds are outside the range. */
  lemma UnicodeKeysymIsCodePoint(codes: OzoneCodes, k: Keysym)
    requires UcsLow < k < UcsHigh
    ensures NormalizeKey(codes, k) == Some(k - UcsOffset)
    ensures 0x100 < NormalizeKey(codes, k).value < 0xffffff
  {
  }

  /** Neither bound of the Unicode range is handled: both fall through to the undefined default. */
  lemma UnicodeBoundsExcluded(codes: OzoneCodes)
    ensures NormalizeKey(codes, UcsLow).None?
    ensures NormalizeKey(codes, UcsHigh).None?
  {
  }

  /** F1..F24 are consecutive from OZONEACTIONKEY_F1, and KP_F1..KP_F4 collide with F1..F4. */
  lemma FunctionKeysFromF1(codes: OzoneCodes, offset: nat)
    requires offset < 24
    ensures NormalizeKey(codes, XKB_KEY_F1 + offset) == Some(AddWrap(codes(ActionF1), offset))
    ensures offset < 4 ==>
      NormalizeKey(codes, XKB_KEY_KP_F1 + offset) == NormalizeKey(codes, XKB_KEY_F1 + offset)
  {
  }

  /** Both period keysyms give OZONECHARCODE_PERIOD. */
  lemma PeriodAliases(codes: OzoneCodes)
    ensures NormalizeKey(codes, XKB_KEY_KP_Decimal) == Some(codes(CharPeriod))
    ensures NormalizeKey(codes, XKB_KEY_period) == Some(codes(CharPeriod))
  {
  }

  /** Both delete keysyms give OZONEACTIONKEY_DELETE. */
  lemma DeleteAliases(codes: OzoneCodes)
    ensures NormalizeKey(codes, XKB_KEY_Delete) == Some(codes(ActionDelete))
    ensures NormalizeKey(codes, XKB_KEY_KP_Delete) == Some(codes(ActionDelete))
  {
  }

  /** All four tab keysyms give OZONEACTIONKEY_TAB. */
  lemma TabAliases(codes: OzoneCodes)
    ensures NormalizeKey(codes, XKB_KEY_KP_Tab) == Some(codes(ActionTab))
    ensures NormalizeKey(codes, XKB_KEY_ISO_Left_Tab) == Some(codes(ActionTab))
    ensures NormalizeKey(codes, XKB_KEY_Tab) == Some(codes(ActionTab))
    ensures NormalizeKey(codes, XKB_KEY_3270_BackTab) == Some(codes(ActionTab))
  {
  }

  /** The initial cached keysym, NoSymbol, gives OZONECHARCODE_NULL. */
  lemma NoSymbolIsNull(codes: OzoneCodes)
    ensures NormalizeKey(codes, XKB_KEY_NoSymbol) == Some(codes(CharNull))
  {
  }

  /**
   * The `emptyset` case label is dead: `emptyset` lies in the Unicode range,
   * so it becomes its code point U+2205 and never reaches OZONECHARCODE_NULL.
   */
  lemma EmptysetIsUnicode(codes: OzoneCodes)
    ensures AliasTarget(XKB_KEY_emptyset) == Some(CharNull)
    ensures NormalizeKey(codes, XKB_KEY_emptyset) == Some(0x2205)
  {
  }

  /** Normalisation is idempotent on the keysyms it leaves as, or turns into, digits and letters. */
  lemma NormalizeIdempotentOnAlphanumeric(codes: OzoneCodes, k: Keysym)
    requires IsAlphanumeric(k) || IsKeypadDigit(k)
    ensures NormalizeKey(codes, k).Some?
    ensures NormalizeKey(codes, NormalizeKey(codes, k).value) == NormalizeKey(codes, k)
  {
  }

  // ---------------------------------------------------------------------
  // Modifier flags
  // ---------------------------------------------------------------------

  /** The xkbcommon modifier names the engine queries. */
  datatype ModName = ModShift | ModCtrl | ModAlt | ModCaps

  /**
   * The host modifier flags for the set of modifiers xkbcommon reports as
   * effective: one flag per queried name, and nothing else.
   */
  function ModifierFlags(effective: set<ModName>): (f: bv32)
    ensures f & !KeyboardFlags == 0
    ensures (f & EF_SHIFT_DOWN != 0) <==> ModShift in effective
    ensures (f & EF_CONTROL_DOWN != 0) <==> ModCtrl in effective
    ensures (f & EF_ALT_DOWN != 0) <==> ModAlt in effective
    ensures (f & EF_CAPS_LOCK_DOWN != 0) <==> ModCaps in effective
  {
    (if ModShift in effective then EF_SHIFT_DOWN else 0)
    | (if ModCtrl in effective then EF_CONTROL_DOWN else 0)
    | (if ModAlt in effective then EF_ALT_DOWN else 0)
    | (if ModCaps in effective then EF_CAPS_LOCK_DOWN else 0)
  }

  /** Caps lock alone: none of the control, alt and shift flags is set. */
  predicate OnlyCapsLocked(modifiers: bv32)
  {
    modifiers & (EF_CONTROL_DOWN | EF_ALT_DOWN | EF_SHIFT_DOWN) == 0
  }

  /** The "no modifiers" test in IgnoreKeyNotify is subsumed by the caps-lock test. */
  lemma NoModifiersIsOnlyCapsLocked(modifiers: bv32)
    ensures (modifiers == 0 || OnlyCapsLocked(modifiers)) <==> OnlyCapsLocked(modifiers)
  {
  }

  // ---------------------------------------------------------------------
  // The engine
  // ---------------------------------------------------------------------

  /**
   * The xkbcommon calls the engine records, in the order it makes them:
   * handle creation, state updates, keysym lookups and unrefs.  The
   * modifier-name queries are not among them; their answers are a parameter.
   */
  datatype XkbCall =
    | ContextNew
    | KeymapNewFromString
    | StateNew
    | StateUpdateMask(depressed: bv32, latched: bv32, locked: bv32, group: bv32)
    | KeyGetSyms(code: Uint32)
    | StateUnref
    | KeymapUnref
    | ContextUnref

  /** The key code xkbcommon expects for an evdev hardware code: evdev + 8, in unsigned arithmetic. */
  function XkbKeyCode(hardwarecode: Uint32): (r: Uint32)
    ensures r == (hardwarecode + 8) % 0x1_0000_0000
  {
    AddWrap(hardwarecode, 8)
  }

  class KeyboardEngine {
    const codes: OzoneCodes

    var keyboardModifiers: bv32
    var modsDepressed: bv32
    var modsLatched: bv32
    var modsLocked: bv32
    var group: bv32
    /** `last_key_`, an `int` compared with unsigned codes: kept as its 32-bit pattern. */
    var lastKey: Uint32
    var cachedSym: Keysym

    /** Whether each xkbcommon handle is non-null. */
    var hasKeymap: bool
    var hasState: bool
    var hasContext: bool

    /** The xkbcommon calls of `XkbCall`'s kinds made so far. */
    var xkbCalls: seq<XkbCall>

    constructor (codes: OzoneCodes)
      ensures this.codes == codes
      ensures keyboardModifiers == 0 && modsDepressed == 0 && modsLatched == 0
      ensures modsLocked == 0 && group == 0
      ensures lastKey == 0xFFFF_FFFF && cachedSym == XKB_KEY_NoSymbol
      ensures !hasKeymap && !hasState && !hasContext
      ensures xkbCalls == []
    {
      this.codes := codes;
      keyboardModifiers, modsDepressed, modsLatched, modsLocked, group := 0, 0, 0, 0, 0;
      lastKey := 0xFFFF_FFFF;  // -1
      cachedSym := XKB_KEY_NoSymbol;
      hasKeymap, hasState, hasContext := false, false, false;
      xkbCalls := [];
    }

    /** Creates the xkbcommon context unless one exists; `contextOk` is whether creation succeeds. */
    method InitXKB(contextOk: bool)
      modifies this
      ensures old(hasContext) ==> hasContext && xkbCalls == old(xkbCalls)
      ensures !old(hasContext) ==> hasContext == contextOk && xkbCalls == old(xkbCalls) + [ContextNew]
      ensures hasKeymap == old(hasKeymap) && hasState == old(hasState)
      ensures keyboardModifiers == old(keyboardModifiers) && modsDepressed == old(modsDepressed)
      ensures modsLatched == old(modsLatched) && modsLocked == old(modsLocked) && group == old(group)
      ensures lastKey == old(lastKey) && cachedSym == old(cachedSym)
    {
      if hasContext {
        return;
      }
      xkbCalls := xkbCalls + [ContextNew];
      hasContext := contextOk;
    }

    /** Releases every non-null handle once, state first, and nulls it. */
    method FiniXKB()
      modifies this
      ensures !hasKeymap && !hasState && !hasContext
      ensures xkbCalls == old(xkbCalls)
        + (if old(hasState) then [StateUnref] else [])
        + (if old(hasKeymap) then [KeymapUnref] else [])
        + (if old(hasContext) then [ContextUnref] else [])
      ensures keyboardModifiers == old(keyboardModifiers) && modsDepressed == old(modsDepressed)
      ensures modsLatched == old(modsLatched) && modsLocked == old(modsLocked) && group == old(group)
      ensures lastKey == old(lastKey) && cachedSym == old(cachedSym)
    {
      if hasState {
        xkbCalls := xkbCalls + [StateUnref];
        hasState := false;
      }
      if hasKeymap {
        xkbCalls := xkbCalls + [KeymapUnref];
        hasKeymap := false;
      }
      if hasContext {
        xkbCalls := xkbCalls + [ContextUnref];
        hasContext := false;
      }
    }

    /**
     * A new keymap arrives.  Mapping the file and compiling the keymap are
     * foreign: `mapped`, `contextOk`, `keymapOk` and `stateOk` say which of
     * mmap, context creation, keymap compilation and state creation succeed.
     */
    method OnKeyboardKeymap(mapped: bool, contextOk: bool, keymapOk: bool, stateOk: bool)
      modifies this
      ensures !mapped ==> (hasKeymap == old(hasKeymap) && hasState == old(hasState)
                           && hasContext == old(hasContext) && xkbCalls == old(xkbCalls))
      ensures mapped ==> hasContext == (old(hasContext) || contextOk)
      ensures mapped && !keymapOk ==> !hasKeymap && hasState == old(hasState)
      ensures mapped && keymapOk ==> hasState == stateOk && hasKeymap == !stateOk
      ensures mapped ==>
        (xkbCalls == old(xkbCalls)
         + (if old(hasContext) then [] else [ContextNew]) + [KeymapNewFromString]
         + (if keymapOk then [StateNew] + (if stateOk then [KeymapUnref] else []) else []))
      ensures keyboardModifiers == old(keyboardModifiers) && modsDepressed == old(modsDepressed)
      ensures modsLatched == old(modsLatched) && modsLocked == old(modsLocked) && group == old(group)
      ensures lastKey == old(lastKey) && cachedSym == old(cachedSym)
    {
      if !mapped {
        return;
      }
      InitXKB(contextOk);
      xkbCalls := xkbCalls + [KeymapNewFromString];
      hasKeymap := keymapOk;
      if !keymapOk {
        return;
      }
      xkbCalls := xkbCalls + [StateNew];
      hasState := stateOk;
      if hasState {
        xkbCalls := xkbCalls + [KeymapUnref];
        hasKeymap := false;
      }
    }

    /** The stored masks equal the given ones. */
    predicate SameMasks(depressed: bv32, latched: bv32, locked: bv32, grp: bv32)
      reads this
    {
      modsDepressed == depressed && modsLocked == locked && modsLatched == latched && group == grp
    }

    /**
     * New modifier masks from the compositor.  `effective` is the set of
     * modifier names xkbcommon reports as effective after the state update.
     */
    method OnKeyModifiers(depressed: bv32, latched: bv32, locked: bv32, grp: bv32, effective: set<ModName>)
      modifies this
      ensures !old(hasState) || old(SameMasks(depressed, latched, locked, grp)) ==>
        (keyboardModifiers == old(keyboardModifiers) && modsDepressed == old(modsDepressed)
         && modsLatched == old(modsLatched) && modsLocked == old(modsLocked) && group == old(group)
         && xkbCalls == old(xkbCalls))
      ensures old(hasState) && !old(SameMasks(depressed, latched, locked, grp)) ==>
        (modsDepressed == depressed && modsLatched == latched && modsLocked == locked && group == grp
         && keyboardModifiers == ModifierFlags(effective)
         && xkbCalls == old(xkbCalls) + [StateUpdateMask(depressed, latched, locked, grp)])
      ensures lastKey == old(lastKey) && cachedSym == old(cachedSym)
      ensures hasKeymap == old(hasKeymap) && hasState == old(hasState) && hasContext == old(hasContext)
    {
      if !hasState {
        return;
      }
      if SameMasks(depressed, latched, locked, grp) {
        return;
      }
      modsDepressed := depressed;
      modsLocked := locked;
      modsLatched := latched;
      group := grp;
      xkbCalls := xkbCalls + [StateUpdateMask(modsDepressed, modsLatched, modsLocked, group)];

      var flags: bv32 := 0;
      if ModShift in effective {
        flags := flags | EF_SHIFT_DOWN;
      }
      if ModCtrl in effective {
        flags := flags | EF_CONTROL_DOWN;
      }
      if ModAlt in effective {
        flags := flags | EF_ALT_DOWN;
      }
      if ModCaps in effective {
        flags := flags | EF_CAPS_LOCK_DOWN;
      }
      keyboardModifiers := flags;
    }

    /**
     * Converts an evdev code through the one-entry cache.  The keysym looked
     * up in the keymap is discarded: the cache is refilled by normalising the
     * previously cached keysym.  `indeterminate` is what the caller receives
     * when that normalisation has no result.
     */
    method ConvertKeyCodeFromEvdev(hardwarecode: Uint32, indeterminate: Keysym) returns (r: Keysym)
      modifies this
      ensures hardwarecode == old(lastKey) ==>
        r == old(cachedSym) && lastKey == old(lastKey) && cachedSym == old(cachedSym)
        && xkbCalls == old(xkbCalls)
      ensures hardwarecode != old(lastKey) ==>
        lastKey == hardwarecode && cachedSym == NormalizeOr(codes, old(cachedSym), indeterminate)
        && r == cachedSym && xkbCalls == old(xkbCalls) + [KeyGetSyms(XkbKeyCode(hardwarecode))]
      ensures keyboardModifiers == old(keyboardModifiers) && modsDepressed == old(modsDepressed)
      ensures modsLatched == old(modsLatched) && modsLocked == old(modsLocked) && group == old(group)
      ensures hasKeymap == old(hasKeymap) && hasState == old(hasState) && hasContext == old(hasContext)
    {
      if hardwarecode == lastKey {
        return cachedSym;
      }
      var code := XkbKeyCode(hardwarecode);
      xkbCalls := xkbCalls + [KeyGetSyms(code)];
      lastKey := hardwarecode;
      cachedSym := NormalizeOr(codes, cachedSym, indeterminate);
      r := cachedSym;
    }

    /** Whether the converted code is AltGr (ISO_Level3_Shift). */
    method IsSpecialModifier(hardwarecode: Uint32, indeterminate: Keysym) returns (special: bool)
      modifies this
      ensures hardwarecode == old(lastKey) ==> special == (old(cachedSym) == XKB_KEY_ISO_Level3_Shift)
      ensures hardwarecode != old(lastKey) ==>
        special == (NormalizeOr(codes, old(cachedSym), indeterminate) == XKB_KEY_ISO_Level3_Shift)
      ensures hardwarecode == old(lastKey) ==>
        (lastKey == old(lastKey) && cachedSym == old(cachedSym) && xkbCalls == old(xkbCalls))
      ensures hardwarecode != old(lastKey) ==>
        (lastKey == hardwarecode && cachedSym == NormalizeOr(codes, old(cachedSym), indeterminate)
         && xkbCalls == old(xkbCalls) + [KeyGetSyms(XkbKeyCode(hardwarecode))])
      ensures keyboardModifiers == old(keyboardModifiers) && modsDepressed == old(modsDepressed)
      ensures modsLatched == old(modsLatched) && modsLocked == old(modsLocked) && group == old(group)
      ensures hasKeymap == old(hasKeymap) && hasState == old(hasState) && hasContext == old(hasContext)
    {
      var sym := ConvertKeyCodeFromEvdev(hardwarecode, indeterminate);
      special := sym == XKB_KEY_ISO_Level3_Shift;
    }

    /** Caps lock is the only modifier flag among control, alt and shift. */
    function IsOnlyCapsLocked(): (r: bool)
      reads this
      ensures r <==> (keyboardModifiers & EF_CONTROL_DOWN == 0 && keyboardModifiers & EF_ALT_DOWN == 0
                      && keyboardModifiers & EF_SHIFT_DOWN == 0)
    {
      if keyboardModifiers & EF_CONTROL_DOWN != 0 then false
      else if keyboardModifiers & EF_ALT_DOWN != 0 then false
      else if keyboardModifiers & EF_SHIFT_DOWN != 0 then false
      else true
    }

    /**
     * Whether a key event is dropped: never a press, never AltGr, and a
     * release only while no control, alt or shift flag is set.
     */
    method IgnoreKeyNotify(hardwarecode: Uint32, pressed: bool, indeterminate: Keysym) returns (ignore: bool)
      modifies this
      ensures pressed ==> (!ignore && lastKey == old(lastKey) && cachedSym == old(cachedSym)
                           && xkbCalls == old(xkbCalls))
      ensures !pressed ==>
        var converted := if hardwarecode == old(lastKey) then old(cachedSym)
                         else NormalizeOr(codes, old(cachedSym), indeterminate);
        ignore == (converted != XKB_KEY_ISO_Level3_Shift && OnlyCapsLocked(keyboardModifiers))
      ensures !pressed && hardwarecode != old(lastKey) ==>
        lastKey == hardwarecode && cachedSym == NormalizeOr(codes, old(cachedSym), indeterminate)
      ensures !pressed && hardwarecode != old(lastKey) ==>
        xkbCalls == old(xkbCalls) + [KeyGetSyms(XkbKeyCode(hardwarecode))]
      ensures !pressed && hardwarecode == old(lastKey) ==>
        lastKey == old(lastKey) && cachedSym == old(cachedSym) && xkbCalls == old(xkbCalls)
      ensures keyboardModifiers == old(keyboardModifiers) && modsDepressed == old(modsDepressed)
      ensures modsLatched == old(modsLatched) && modsLocked == old(modsLocked) && group == old(group)
      ensures hasKeymap == old(hasKeymap) && hasState == old(hasState) && hasContext == old(hasContext)
    {
      if pressed {
        return false;
      }
      var special := IsSpecialModifier(hardwarecode, indeterminate);
      if special {
        return false;
      }
      if keyboardModifiers == 0 || IsOnlyCapsLocked() {
        return true;
      }
      return false;
    }
  }

  /** On a fresh engine, the first conversion of any code but 0xFFFFFFFF yields OZONECHARCODE_NULL. */
  method FirstConversionIgnoresKeymap(codes: OzoneCodes, hardwarecode: Uint32) returns (r: Keysym)
    requires hardwarecode != 0xFFFF_FFFF
    ensures r == codes(CharNull)
  {
    var engine := new KeyboardEngine(codes);
    r := engine.ConvertKeyCodeFromEvdev(hardwarecode, 0);
  }
}
