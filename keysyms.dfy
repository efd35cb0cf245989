/**
 * Keysym values and Ozone key-code names used by keysym normalisation.
 *
 * Keysym values are those of xkbcommon's `xkbcommon-keysyms.h`, which is not
 * part of this model.  The Ozone key codes (`OZONECHARCODE_*`,
 * `OZONEACTIONKEY_*`) live in a header that is not part of this model either:
 * they are kept abstract, as names, and every function that needs their
 * numeric values takes an `OzoneCodes` table.
 */
module Keysyms {
  import opened Basics

  type Keysym = Uint32

  const XKB_KEY_NoSymbol: Keysym := 0x000000
  const XKB_KEY_0: Keysym := 0x0030
  const XKB_KEY_9: Keysym := 0x0039
  const XKB_KEY_A: Keysym := 0x0041
  const XKB_KEY_Z: Keysym := 0x005a
  const XKB_KEY_a: Keysym := 0x0061
  const XKB_KEY_z: Keysym := 0x007a
  const XKB_KEY_period: Keysym := 0x002e
  const XKB_KEY_KP_0: Keysym := 0xffb0
  const XKB_KEY_KP_9: Keysym := 0xffb9
  const XKB_KEY_KP_Decimal: Keysym := 0xffae
  const XKB_KEY_KP_F1: Keysym := 0xff91
  const XKB_KEY_KP_F4: Keysym := 0xff94
  const XKB_KEY_F1: Keysym := 0xffbe
  const XKB_KEY_F24: Keysym := 0xffd5
  const XKB_KEY_Tab: Keysym := 0xff09
  const XKB_KEY_KP_Tab: Keysym := 0xff89
  const XKB_KEY_ISO_Left_Tab: Keysym := 0xfe20
  const XKB_KEY_3270_BackTab: Keysym := 0xfd05
  const XKB_KEY_Delete: Keysym := 0xffff
  const XKB_KEY_KP_Delete: Keysym := 0xff9f
  const XKB_KEY_ISO_Level3_Shift: Keysym := 0xfe03
  const XKB_KEY_emptyset: Keysym := 0x1002205

  /** Lower and upper bounds (both excluded) of the Unicode keysym range. */
  const UcsLow: Keysym := 0x01000100
  const UcsHigh: Keysym := 0x01ffffff
  /** Offset of a Unicode keysym above its code point. */
  const UcsOffset: Keysym := 0x01000000

  /** The Ozone key codes that keysym normalisation produces, by name. */
  datatype OzoneName =
    | CharCaretCircumflex | CharSpacingDiaeresis | CharTilde | CharSpacingAcute
    | CharGraveAsscent | CharEndash | CharSingleLowQuotationMark | CharSpacingCedilla
    | CharEqual | CharMultiply | CharPlus | CharComma | CharMinus | CharPeriod
    | CharDivision | CharLinefeed | CharCaron | CharDoubleAcuteAccent
    | CharCombiningHorn | CharLsmallOe | CharLoe | CharLsmallDotLessI | CharLsmallKra
    | CharLsmallEng | CharLeng | CharLeftSingleQuotationMark
    | CharRightSingleQuotationMark | CharCombiningDotBelow
    | CharCombiningDiaeresisBelow | CharNull
    | ActionF1 | ActionDelete | ActionTab | ActionEscape | ActionReturn | ActionSpace
    | ActionBack | ActionClear | ActionHome | ActionEnd | ActionPrior | ActionNext
    | ActionLeft | ActionRight | ActionDown | ActionUp | ActionKana | ActionHangul
    | ActionHanja | ActionKanji | ActionConvert | ActionNonconvert | ActionDbeDbcschar
    | ActionOem8 | ActionShift | ActionControl | ActionMenu | ActionAltgr
    | ActionCompose | ActionPause | ActionCapital | ActionNumlock | ActionScroll
    | ActionSelect | ActionPrint | ActionExecute | ActionInsert | ActionHelp
    | ActionLwin | ActionRwin | ActionApps
    | ActionF13 | ActionF14 | ActionF15 | ActionF16 | ActionF17 | ActionF18
    | ActionBrowserBack | ActionBrowserForward | ActionBrowserRefresh
    | ActionBrowserStop | ActionBrowserSearch | ActionBrowserFavorites
    | ActionBrowserHome | ActionVolumeMute | ActionVolumeDown | ActionVolumeUp
    | ActionMediaNextTrack | ActionMediaPrevTrack | ActionMediaStop
    | ActionMediaPlayPause | ActionMediaLaunchMail | ActionMediaLaunchApp1
    | ActionMediaLaunchApp2 | ActionWlan | ActionPower | ActionBrightnessDown
    | ActionBrightnessUp | ActionKbdBrightnessDown | ActionKbdBrightnessUp

  /** The numeric value of each Ozone key code, as the Ozone key-code header defines it. */
  type OzoneCodes = OzoneName -> Uint32

  /**
   * The `switch` on the keysym in NormalizeKey: the case labels and the Ozone
   * code each group of labels returns.  None is the `default: break` arm.
   */
  function AliasTarget(keysym: Keysym): Option<OzoneName>
  {
    match keysym
    case 0xfe52 => Some(CharCaretCircumflex)           // dead_circumflex
    case 0xfe57 => Some(CharSpacingDiaeresis)          // dead_diaeresis
    case 0xfe53 => Some(CharTilde)                     // dead_perispomeni
    case 0xfe51 => Some(CharSpacingAcute)              // dead_acute
    case 0xfe50 => Some(CharGraveAsscent)              // dead_grave
    case 0x0aaa => Some(CharEndash)                    // endash
    case 0x0afd => Some(CharSingleLowQuotationMark)    // singlelowquotemark
    case 0xfe5b => Some(CharSpacingCedilla)            // dead_cedilla
    case 0xffbd => Some(CharEqual)                     // KP_Equal
    case 0xffaa => Some(CharMultiply)                  // KP_Multiply
    case 0xffab => Some(CharPlus)                      // KP_Add
    case 0xffac => Some(CharComma)                     // KP_Separator
    case 0xffad => Some(CharMinus)                     // KP_Subtract
    case 0xffae | 0x002e => Some(CharPeriod)           // KP_Decimal, period
    case 0xffaf => Some(CharDivision)                  // KP_Divide
    case 0xffff | 0xff9f => Some(ActionDelete)         // Delete, KP_Delete
    case 0xff89 | 0xfe20 | 0xff09 | 0xfd05 =>          // KP_Tab, ISO_Left_Tab, Tab, 3270_BackTab
      Some(ActionTab)
    case 0xff15 | 0xff1b => Some(ActionEscape)         // Sys_Req, Escape
    case 0xff0a => Some(CharLinefeed)                  // Linefeed
    case 0xff0d | 0xff8d | 0xfe34 => Some(ActionReturn) // Return, KP_Enter, ISO_Enter
    case 0xff80 | 0x0020 => Some(ActionSpace)          // KP_Space, space
    case 0xfe5a => Some(CharCaron)                     // dead_caron
    case 0xff08 => Some(ActionBack)                    // BackSpace
    case 0xfe59 => Some(CharDoubleAcuteAccent)         // dead_doubleacute
    case 0xfe62 => Some(CharCombiningHorn)             // dead_horn
    case 0x13bd => Some(CharLsmallOe)                  // oe
    case 0x13bc => Some(CharLoe)                       // OE
    case 0x02b9 => Some(CharLsmallDotLessI)            // idotless
    case 0x03a2 => Some(CharLsmallKra)                 // kra
    case 0xfe63 => Some(CharMinus)                     // dead_stroke
    case 0x03bf => Some(CharLsmallEng)                 // eng
    case 0x03bd => Some(CharLeng)                      // ENG
    case 0x0ad0 => Some(CharLeftSingleQuotationMark)   // leftsinglequotemark
    case 0x0ad1 => Some(CharRightSingleQuotationMark)  // rightsinglequotemark
    case 0xfe60 => Some(CharCombiningDotBelow)         // dead_belowdot
    case 0xfe6c => Some(CharCombiningDiaeresisBelow)   // dead_belowdiaeresis
    case 0xff0b | 0xff9d => Some(ActionClear)          // Clear, KP_Begin
    case 0xff50 | 0xff95 => Some(ActionHome)           // Home, KP_Home
    case 0xff57 | 0xff9c => Some(ActionEnd)            // End, KP_End
    case 0xff55 | 0xff9a => Some(ActionPrior)          // Page_Up, KP_Page_Up
    case 0xff56 | 0xff9b => Some(ActionNext)           // Page_Down, KP_Page_Down
    case 0xff51 | 0xff96 => Some(ActionLeft)           // Left, KP_Left
    case 0xff53 | 0xff98 => Some(ActionRight)          // Right, KP_Right
    case 0xff54 | 0xff99 => Some(ActionDown)           // Down, KP_Down
    case 0xff52 | 0xff97 => Some(ActionUp)             // Up, KP_Up
    case 0xff2d | 0xff2e => Some(ActionKana)           // Kana_Lock, Kana_Shift
    case 0xff31 => Some(ActionHangul)                  // Hangul
    case 0xff34 => Some(ActionHanja)                   // Hangul_Hanja
    case 0xff21 => Some(ActionKanji)                   // Kanji
    case 0xff23 => Some(ActionConvert)                 // Henkan
    case 0xff22 => Some(ActionNonconvert)              // Muhenkan
    case 0xff2a => Some(ActionDbeDbcschar)             // Zenkaku_Hankaku
    case 0xfe11 => Some(ActionOem8)                    // ISO_Level5_Shift
    case 0xffe1 | 0xffe2 => Some(ActionShift)          // Shift_L, Shift_R
    case 0xffe3 | 0xffe4 => Some(ActionControl)        // Control_L, Control_R
    case 0xffe7 | 0xffe8 | 0xffe9 | 0xffea =>          // Meta_L, Meta_R, Alt_L, Alt_R
      Some(ActionMenu)
    case 0xfe03 => Some(ActionAltgr)                   // ISO_Level3_Shift
    case 0xff20 => Some(ActionCompose)                 // Multi_key
    case 0xff13 => Some(ActionPause)                   // Pause
    case 0xffe5 => Some(ActionCapital)                 // Caps_Lock
    case 0xff7f => Some(ActionNumlock)                 // Num_Lock
    case 0xff14 => Some(ActionScroll)                  // Scroll_Lock
    case 0xff60 => Some(ActionSelect)                  // Select
    case 0xff61 => Some(ActionPrint)                   // Print
    case 0xff62 => Some(ActionExecute)                 // Execute
    case 0xff63 | 0xff9e => Some(ActionInsert)         // Insert, KP_Insert
    case 0xff6a => Some(ActionHelp)                    // Help
    case 0xffeb => Some(ActionLwin)                    // Super_L
    case 0xffec => Some(ActionRwin)                    // Super_R
    case 0xff67 => Some(ActionApps)                    // Menu
    case 0x1008ff81 => Some(ActionF13)                 // XF86Tools
    case 0x1008ff45 => Some(ActionF14)                 // XF86Launch5
    case 0x1008ff46 => Some(ActionF15)                 // XF86Launch6
    case 0x1008ff47 => Some(ActionF16)                 // XF86Launch7
    case 0x1008ff48 => Some(ActionF17)                 // XF86Launch8
    case 0x1008ff49 => Some(ActionF18)                 // XF86Launch9
    case 0x1008ff26 => Some(ActionBrowserBack)         // XF86Back
    case 0x1008ff27 => Some(ActionBrowserForward)      // XF86Forward
    case 0x1008ff73 => Some(ActionBrowserRefresh)      // XF86Reload
    case 0x1008ff28 => Some(ActionBrowserStop)         // XF86Stop
    case 0x1008ff1b => Some(ActionBrowserSearch)       // XF86Search
    case 0x1008ff30 => Some(ActionBrowserFavorites)    // XF86Favorites
    case 0x1008ff18 => Some(ActionBrowserHome)         // XF86HomePage
    case 0x1008ff12 => Some(ActionVolumeMute)          // XF86AudioMute
    case 0x1008ff11 => Some(ActionVolumeDown)          // XF86AudioLowerVolume
    case 0x1008ff13 => Some(ActionVolumeUp)            // XF86AudioRaiseVolume
    case 0x1008ff17 => Some(ActionMediaNextTrack)      // XF86AudioNext
    case 0x1008ff16 => Some(ActionMediaPrevTrack)      // XF86AudioPrev
    case 0x1008ff15 => Some(ActionMediaStop)           // XF86AudioStop
    case 0x1008ff14 => Some(ActionMediaPlayPause)      // XF86AudioPlay
    case 0x1008ff19 => Some(ActionMediaLaunchMail)     // XF86Mail
    case 0x1008ff4a => Some(ActionMediaLaunchApp1)     // XF86LaunchA
    case 0x1008ff4b | 0x1008ff1d =>                    // XF86LaunchB, XF86Calculator
      Some(ActionMediaLaunchApp2)
    case 0x1008ff95 => Some(ActionWlan)                // XF86WLAN
    case 0x1008ff2a => Some(ActionPower)               // XF86PowerOff
    case 0x1008ff03 => Some(ActionBrightnessDown)      // XF86MonBrightnessDown
    case 0x1008ff02 => Some(ActionBrightnessUp)        // XF86MonBrightnessUp
    case 0x1008ff06 => Some(ActionKbdBrightnessDown)   // XF86KbdBrightnessDown
    case 0x1008ff05 => Some(ActionKbdBrightnessUp)     // XF86KbdBrightnessUp
    case 0x1002205 | 0x000000 => Some(CharNull)        // emptyset, NoSymbol
    case _ => None
  }
}
