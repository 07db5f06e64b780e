/** Keyboard vocabulary of src/key.rs, part two: virtual key syms. A `Sym` is a field-less
    enum with explicit discriminants; it is modelled by those discriminants, one named
    constant per variant, so that the mask encoding can be stated directly. */
module KeySym {
  // ---------------------------------------------------------------- masks

  const SYM_CONTROL_MASK: bv32 := 0x8000_0000
  const SYM_KP_MASK: bv32 := 0x4000_0000
  const SYM_MEDIA_MASK: bv32 := 0x2000_0000
  const SYM_MODS_MASK: bv32 := 0x0080_0000
  const SYM_CTRL_MASK: bv32 := 0x0001_0000
  const SYM_SHIFT_MASK: bv32 := 0x0002_0000
  const SYM_META_MASK: bv32 := 0x0004_0000
  const SYM_ALT_MASK: bv32 := 0x0008_0000
  const SYM_SUPER_MASK: bv32 := 0x0010_0000
  const SYM_LEFT_MASK: bv32 := 0x0020_0000
  const SYM_RIGHT_MASK: bv32 := 0x0040_0000
  const SYM_LATIN1_SMALL_MASK: bv32 := 0x0000_0020

  // ---------------------------------------------------------------- variants

  /** The discriminant of a virtual key. */
  type Sym = bv32

  // A variant without an explicit discriminant takes the previous one plus one, as in Rust,
  // written here as the last explicit discriminant plus the distance from it.
  const None: Sym := 0
  const Unknown: Sym := 0x0000_ffdf
  const Escape: Sym := SYM_CONTROL_MASK | 1
  const Tab: Sym := (SYM_CONTROL_MASK | 1) + 1
  const LeftTab: Sym := (SYM_CONTROL_MASK | 1) + 2
  const Backspace: Sym := (SYM_CONTROL_MASK | 1) + 3
  const Return: Sym := (SYM_CONTROL_MASK | 1) + 4
  const Delete: Sym := (SYM_CONTROL_MASK | 1) + 5
  const SysRq: Sym := (SYM_CONTROL_MASK | 1) + 6
  const Pause: Sym := (SYM_CONTROL_MASK | 1) + 7
  const Clear: Sym := (SYM_CONTROL_MASK | 1) + 8
  const CapsLock: Sym := (SYM_CONTROL_MASK | 1) + 9
  const NumLock: Sym := (SYM_CONTROL_MASK | 1) + 10
  const ScrollLock: Sym := (SYM_CONTROL_MASK | 1) + 11
  const Left: Sym := (SYM_CONTROL_MASK | 1) + 12
  const Up: Sym := (SYM_CONTROL_MASK | 1) + 13
  const Right: Sym := (SYM_CONTROL_MASK | 1) + 14
  const Down: Sym := (SYM_CONTROL_MASK | 1) + 15
  const PageUp: Sym := (SYM_CONTROL_MASK | 1) + 16
  const PageDown: Sym := (SYM_CONTROL_MASK | 1) + 17
  const Home: Sym := (SYM_CONTROL_MASK | 1) + 18
  const End: Sym := (SYM_CONTROL_MASK | 1) + 19
  const Print: Sym := (SYM_CONTROL_MASK | 1) + 20
  const Insert: Sym := (SYM_CONTROL_MASK | 1) + 21
  const Menu: Sym := (SYM_CONTROL_MASK | 1) + 22
  const Help: Sym := (SYM_CONTROL_MASK | 1) + 23
  const Break: Sym := (SYM_CONTROL_MASK | 1) + 24
  const F1: Sym := (SYM_CONTROL_MASK | 1) + 25
  const F2: Sym := (SYM_CONTROL_MASK | 1) + 26
  const F3: Sym := (SYM_CONTROL_MASK | 1) + 27
  const F4: Sym := (SYM_CONTROL_MASK | 1) + 28
  const F5: Sym := (SYM_CONTROL_MASK | 1) + 29
  const F6: Sym := (SYM_CONTROL_MASK | 1) + 30
  const F7: Sym := (SYM_CONTROL_MASK | 1) + 31
  const F8: Sym := (SYM_CONTROL_MASK | 1) + 32
  const F9: Sym := (SYM_CONTROL_MASK | 1) + 33
  const F10: Sym := (SYM_CONTROL_MASK | 1) + 34
  const F11: Sym := (SYM_CONTROL_MASK | 1) + 35
  const F12: Sym := (SYM_CONTROL_MASK | 1) + 36
  const F13: Sym := (SYM_CONTROL_MASK | 1) + 37
  const F14: Sym := (SYM_CONTROL_MASK | 1) + 38
  const F15: Sym := (SYM_CONTROL_MASK | 1) + 39
  const F16: Sym := (SYM_CONTROL_MASK | 1) + 40
  const F17: Sym := (SYM_CONTROL_MASK | 1) + 41
  const F18: Sym := (SYM_CONTROL_MASK | 1) + 42
  const F19: Sym := (SYM_CONTROL_MASK | 1) + 43
  const F20: Sym := (SYM_CONTROL_MASK | 1) + 44
  const F21: Sym := (SYM_CONTROL_MASK | 1) + 45
  const F22: Sym := (SYM_CONTROL_MASK | 1) + 46
  const F23: Sym := (SYM_CONTROL_MASK | 1) + 47
  const F24: Sym := (SYM_CONTROL_MASK | 1) + 48
  const Kp_Enter: Sym := SYM_KP_MASK | 1
  const Kp_Delete: Sym := (SYM_KP_MASK | 1) + 1
  const Kp_Home: Sym := (SYM_KP_MASK | 1) + 2
  const Kp_Begin: Sym := (SYM_KP_MASK | 1) + 3
  const Kp_End: Sym := (SYM_KP_MASK | 1) + 4
  const Kp_PageUp: Sym := (SYM_KP_MASK | 1) + 5
  const Kp_PageDown: Sym := (SYM_KP_MASK | 1) + 6
  const Kp_Up: Sym := (SYM_KP_MASK | 1) + 7
  const Kp_Down: Sym := (SYM_KP_MASK | 1) + 8
  const Kp_Left: Sym := (SYM_KP_MASK | 1) + 9
  const Kp_Right: Sym := (SYM_KP_MASK | 1) + 10
  const Kp_Equal: Sym := (SYM_KP_MASK | 1) + 11
  const Kp_Multiply: Sym := (SYM_KP_MASK | 1) + 12
  const Kp_Add: Sym := (SYM_KP_MASK | 1) + 13
  const Kp_Divide: Sym := (SYM_KP_MASK | 1) + 14
  const Kp_Subtract: Sym := (SYM_KP_MASK | 1) + 15
  const Kp_Decimal: Sym := (SYM_KP_MASK | 1) + 16
  const Kp_Separator: Sym := (SYM_KP_MASK | 1) + 17
  const Kp_0: Sym := (SYM_KP_MASK | 1) + 18
  const Kp_1: Sym := (SYM_KP_MASK | 1) + 19
  const Kp_2: Sym := (SYM_KP_MASK | 1) + 20
  const Kp_3: Sym := (SYM_KP_MASK | 1) + 21
  const Kp_4: Sym := (SYM_KP_MASK | 1) + 22
  const Kp_5: Sym := (SYM_KP_MASK | 1) + 23
  const Kp_6: Sym := (SYM_KP_MASK | 1) + 24
  const Kp_7: Sym := (SYM_KP_MASK | 1) + 25
  const Kp_8: Sym := (SYM_KP_MASK | 1) + 26
  const Kp_9: Sym := (SYM_KP_MASK | 1) + 27
  const Dead_grave: Sym := SYM_MODS_MASK | 1
  const Dead_acute: Sym := (SYM_MODS_MASK | 1) + 1
  const Dead_circumflex: Sym := (SYM_MODS_MASK | 1) + 2
  const Dead_tilde: Sym := (SYM_MODS_MASK | 1) + 3
  const Dead_macron: Sym := (SYM_MODS_MASK | 1) + 4
  const Dead_breve: Sym := (SYM_MODS_MASK | 1) + 5
  const Dead_abovedot: Sym := (SYM_MODS_MASK | 1) + 6
  const Dead_diaeresis: Sym := (SYM_MODS_MASK | 1) + 7
  const Dead_abovering: Sym := (SYM_MODS_MASK | 1) + 8
  const Dead_doubleacute: Sym := (SYM_MODS_MASK | 1) + 9
  const Dead_caron: Sym := (SYM_MODS_MASK | 1) + 10
  const Dead_cedilla: Sym := (SYM_MODS_MASK | 1) + 11
  const Dead_ogonek: Sym := (SYM_MODS_MASK | 1) + 12
  const Dead_iota: Sym := (SYM_MODS_MASK | 1) + 13
  const Dead_voiced_sound: Sym := (SYM_MODS_MASK | 1) + 14
  const Dead_semivoiced_sound: Sym := (SYM_MODS_MASK | 1) + 15
  const Dead_belowdot: Sym := (SYM_MODS_MASK | 1) + 16
  const Dead_hook: Sym := (SYM_MODS_MASK | 1) + 17
  const Dead_horn: Sym := (SYM_MODS_MASK | 1) + 18
  const Dead_stroke: Sym := (SYM_MODS_MASK | 1) + 19
  const Dead_abovecomma: Sym := (SYM_MODS_MASK | 1) + 20
  const Dead_abovereversedcomma: Sym := (SYM_MODS_MASK | 1) + 21
  const Dead_doublegrave: Sym := (SYM_MODS_MASK | 1) + 22
  const Dead_belowring: Sym := (SYM_MODS_MASK | 1) + 23
  const Dead_belowmacron: Sym := (SYM_MODS_MASK | 1) + 24
  const Dead_belowcircumflex: Sym := (SYM_MODS_MASK | 1) + 25
  const Dead_belowtilde: Sym := (SYM_MODS_MASK | 1) + 26
  const Dead_belowbreve: Sym := (SYM_MODS_MASK | 1) + 27
  const Dead_belowdiaeresis: Sym := (SYM_MODS_MASK | 1) + 28
  const Dead_invertedbreve: Sym := (SYM_MODS_MASK | 1) + 29
  const Dead_belowcomma: Sym := (SYM_MODS_MASK | 1) + 30
  const Dead_currency: Sym := (SYM_MODS_MASK | 1) + 31
  const Dead_lowline: Sym := (SYM_MODS_MASK | 1) + 32
  const Dead_aboveverticalline: Sym := (SYM_MODS_MASK | 1) + 33
  const Dead_belowverticalline: Sym := (SYM_MODS_MASK | 1) + 34
  const Dead_longsolidusoverlay: Sym := (SYM_MODS_MASK | 1) + 35
  const Dead_a: Sym := (SYM_MODS_MASK | 1) + 36
  const Dead_A: Sym := (SYM_MODS_MASK | 1) + 37
  const Dead_e: Sym := (SYM_MODS_MASK | 1) + 38
  const Dead_E: Sym := (SYM_MODS_MASK | 1) + 39
  const Dead_i: Sym := (SYM_MODS_MASK | 1) + 40
  const Dead_I: Sym := (SYM_MODS_MASK | 1) + 41
  const Dead_o: Sym := (SYM_MODS_MASK | 1) + 42
  const Dead_O: Sym := (SYM_MODS_MASK | 1) + 43
  const Dead_u: Sym := (SYM_MODS_MASK | 1) + 44
  const Dead_U: Sym := (SYM_MODS_MASK | 1) + 45
  const Dead_small_schwa: Sym := (SYM_MODS_MASK | 1) + 46
  const Dead_capital_schwa: Sym := (SYM_MODS_MASK | 1) + 47
  const ModeSwitch: Sym := (SYM_MODS_MASK | 1) + 48
  const LeftCtrl: Sym := SYM_CTRL_MASK | SYM_LEFT_MASK | SYM_MODS_MASK
  const RightCtrl: Sym := SYM_CTRL_MASK | SYM_RIGHT_MASK | SYM_MODS_MASK
  const LeftShift: Sym := SYM_SHIFT_MASK | SYM_LEFT_MASK | SYM_MODS_MASK
  const RightShift: Sym := SYM_SHIFT_MASK | SYM_RIGHT_MASK | SYM_MODS_MASK
  const LeftMeta: Sym := SYM_META_MASK | SYM_LEFT_MASK | SYM_MODS_MASK
  const RightMeta: Sym := SYM_META_MASK | SYM_RIGHT_MASK | SYM_MODS_MASK
  const LeftAlt: Sym := SYM_ALT_MASK | SYM_LEFT_MASK | SYM_MODS_MASK
  const RightAlt: Sym := SYM_ALT_MASK | SYM_RIGHT_MASK | SYM_MODS_MASK
  const LeftSuper: Sym := SYM_SUPER_MASK | SYM_LEFT_MASK | SYM_MODS_MASK
  const RightSuper: Sym := SYM_SUPER_MASK | SYM_RIGHT_MASK | SYM_MODS_MASK
  const Ctrl: Sym := SYM_CTRL_MASK | SYM_LEFT_MASK | SYM_RIGHT_MASK | SYM_MODS_MASK
  const Shift: Sym := SYM_SHIFT_MASK | SYM_LEFT_MASK | SYM_RIGHT_MASK | SYM_MODS_MASK
  const Meta: Sym := SYM_META_MASK | SYM_LEFT_MASK | SYM_RIGHT_MASK | SYM_MODS_MASK
  const Alt: Sym := SYM_ALT_MASK | SYM_LEFT_MASK | SYM_RIGHT_MASK | SYM_MODS_MASK
  const Super: Sym := SYM_SUPER_MASK | SYM_LEFT_MASK | SYM_RIGHT_MASK | SYM_MODS_MASK
  const Space: Sym := 0x0000_0020
  const Exclam: Sym := 0x0000_0021
  const Quotedbl: Sym := 0x0000_0022
  const Numbersign: Sym := 0x0000_0023
  const Dollar: Sym := 0x0000_0024
  const Percent: Sym := 0x0000_0025
  const Ampersand: Sym := 0x0000_0026
  const Apostrophe: Sym := 0x0000_0027
  const ParenLeft: Sym := 0x0000_0028
  const ParenRight: Sym := 0x0000_0029
  const Asterisk: Sym := 0x0000_002a
  const Plus: Sym := 0x0000_002b
  const Comma: Sym := 0x0000_002c
  const Minus: Sym := 0x0000_002d
  const Period: Sym := 0x0000_002e
  const Slash: Sym := 0x0000_002f
  const D0: Sym := 0x0000_0030
  const D1: Sym := 0x0000_0031
  const D2: Sym := 0x0000_0032
  const D3: Sym := 0x0000_0033
  const D4: Sym := 0x0000_0034
  const D5: Sym := 0x0000_0035
  const D6: Sym := 0x0000_0036
  const D7: Sym := 0x0000_0037
  const D8: Sym := 0x0000_0038
  const D9: Sym := 0x0000_0039
  const Colon: Sym := 0x0000_003a
  const Semicolon: Sym := 0x0000_003b
  const Less: Sym := 0x0000_003c
  const Equal: Sym := 0x0000_003d
  const Greater: Sym := 0x0000_003e
  const Question: Sym := 0x0000_003f
  const At: Sym := 0x0000_0040
  const A: Sym := 0x0000_0041
  const B: Sym := 0x0000_0042
  const C: Sym := 0x0000_0043
  const D: Sym := 0x0000_0044
  const E: Sym := 0x0000_0045
  const F: Sym := 0x0000_0046
  const G: Sym := 0x0000_0047
  const H: Sym := 0x0000_0048
  const I: Sym := 0x0000_0049
  const J: Sym := 0x0000_004a
  const K: Sym := 0x0000_004b
  const L: Sym := 0x0000_004c
  const M: Sym := 0x0000_004d
  const N: Sym := 0x0000_004e
  const O: Sym := 0x0000_004f
  const P: Sym := 0x0000_0050
  const Q: Sym := 0x0000_0051
  const R: Sym := 0x0000_0052
  const S: Sym := 0x0000_0053
  const T: Sym := 0x0000_0054
  const U: Sym := 0x0000_0055
  const V: Sym := 0x0000_0056
  const W: Sym := 0x0000_0057
  const X: Sym := 0x0000_0058
  const Y: Sym := 0x0000_0059
  const Z: Sym := 0x0000_005a
  const BracketLeft: Sym := 0x0000_005b
  const Backslash: Sym := 0x0000_005c
  const BracketRight: Sym := 0x0000_005d
  const AsciiCircum: Sym := 0x0000_005e
  const Underscore: Sym := 0x0000_005f
  const Grave: Sym := 0x0000_0060
  const BraceLeft: Sym := 0x0000_007b
  const Bar: Sym := 0x0000_007c
  const BraceRight: Sym := 0x0000_007d
  const AsciiTilde: Sym := 0x0000_007e
  const Back: Sym := SYM_MEDIA_MASK | 1
  const Forward: Sym := (SYM_MEDIA_MASK | 1) + 1
  const Stop: Sym := (SYM_MEDIA_MASK | 1) + 2
  const Refresh: Sym := (SYM_MEDIA_MASK | 1) + 3
  const VolumeDown: Sym := (SYM_MEDIA_MASK | 1) + 4
  const VolumeMute: Sym := (SYM_MEDIA_MASK | 1) + 5
  const VolumeUp: Sym := (SYM_MEDIA_MASK | 1) + 6
  const BassBoost: Sym := (SYM_MEDIA_MASK | 1) + 7
  const BassUp: Sym := (SYM_MEDIA_MASK | 1) + 8
  const BassDown: Sym := (SYM_MEDIA_MASK | 1) + 9
  const TrebleUp: Sym := (SYM_MEDIA_MASK | 1) + 10
  const TrebleDown: Sym := (SYM_MEDIA_MASK | 1) + 11
  const MediaPlay: Sym := (SYM_MEDIA_MASK | 1) + 12
  const MediaStop: Sym := (SYM_MEDIA_MASK | 1) + 13
  const MediaPrevious: Sym := (SYM_MEDIA_MASK | 1) + 14
  const MediaNext: Sym := (SYM_MEDIA_MASK | 1) + 15
  const MediaRecord: Sym := (SYM_MEDIA_MASK | 1) + 16
  const MediaPause: Sym := (SYM_MEDIA_MASK | 1) + 17
  const MediaTogglePlayPause: Sym := (SYM_MEDIA_MASK | 1) + 18
  const HomePage: Sym := (SYM_MEDIA_MASK | 1) + 19
  const Favorites: Sym := (SYM_MEDIA_MASK | 1) + 20
  const Search: Sym := (SYM_MEDIA_MASK | 1) + 21
  const Standby: Sym := (SYM_MEDIA_MASK | 1) + 22
  const OpenUrl: Sym := (SYM_MEDIA_MASK | 1) + 23
  const MyComputer: Sym := (SYM_MEDIA_MASK | 1) + 24
  const LaunchMail: Sym := (SYM_MEDIA_MASK | 1) + 25
  const LaunchMedia: Sym := (SYM_MEDIA_MASK | 1) + 26
  const Launch0: Sym := (SYM_MEDIA_MASK | 1) + 27
  const Launch1: Sym := (SYM_MEDIA_MASK | 1) + 28
  const Launch2: Sym := (SYM_MEDIA_MASK | 1) + 29
  const Launch3: Sym := (SYM_MEDIA_MASK | 1) + 30
  const Launch4: Sym := (SYM_MEDIA_MASK | 1) + 31
  const Launch5: Sym := (SYM_MEDIA_MASK | 1) + 32
  const Launch6: Sym := (SYM_MEDIA_MASK | 1) + 33
  const Launch7: Sym := (SYM_MEDIA_MASK | 1) + 34
  const Launch8: Sym := (SYM_MEDIA_MASK | 1) + 35
  const Launch9: Sym := (SYM_MEDIA_MASK | 1) + 36
  const LaunchA: Sym := (SYM_MEDIA_MASK | 1) + 37
  const LaunchB: Sym := (SYM_MEDIA_MASK | 1) + 38
  const LaunchC: Sym := (SYM_MEDIA_MASK | 1) + 39
  const LaunchD: Sym := (SYM_MEDIA_MASK | 1) + 40
  const LaunchE: Sym := (SYM_MEDIA_MASK | 1) + 41
  const LaunchF: Sym := (SYM_MEDIA_MASK | 1) + 42
  const MonBrightnessUp: Sym := (SYM_MEDIA_MASK | 1) + 43
  const MonBrightnessDown: Sym := (SYM_MEDIA_MASK | 1) + 44
  const KeyboardLightOnOff: Sym := (SYM_MEDIA_MASK | 1) + 45
  const KeyboardBrightnessUp: Sym := (SYM_MEDIA_MASK | 1) + 46
  const KeyboardBrightnessDown: Sym := (SYM_MEDIA_MASK | 1) + 47
  const PowerOff: Sym := (SYM_MEDIA_MASK | 1) + 48
  const WakeUp: Sym := (SYM_MEDIA_MASK | 1) + 49
  const Eject: Sym := (SYM_MEDIA_MASK | 1) + 50
  const ScreenSaver: Sym := (SYM_MEDIA_MASK | 1) + 51
  const WWW: Sym := (SYM_MEDIA_MASK | 1) + 52
  const Memo: Sym := (SYM_MEDIA_MASK | 1) + 53
  const LightBulb: Sym := (SYM_MEDIA_MASK | 1) + 54
  const Shop: Sym := (SYM_MEDIA_MASK | 1) + 55
  const History: Sym := (SYM_MEDIA_MASK | 1) + 56
  const AddFavorite: Sym := (SYM_MEDIA_MASK | 1) + 57
  const HotLinks: Sym := (SYM_MEDIA_MASK | 1) + 58
  const BrightnessAdjust: Sym := (SYM_MEDIA_MASK | 1) + 59
  const Finance: Sym := (SYM_MEDIA_MASK | 1) + 60
  const Community: Sym := (SYM_MEDIA_MASK | 1) + 61
  const AudioRewind: Sym := (SYM_MEDIA_MASK | 1) + 62
  const BackForward: Sym := (SYM_MEDIA_MASK | 1) + 63
  const ApplicationLeft: Sym := (SYM_MEDIA_MASK | 1) + 64
  const ApplicationRight: Sym := (SYM_MEDIA_MASK | 1) + 65
  const Book: Sym := (SYM_MEDIA_MASK | 1) + 66
  const CD: Sym := (SYM_MEDIA_MASK | 1) + 67
  const Calculator: Sym := (SYM_MEDIA_MASK | 1) + 68
  const ToDoList: Sym := (SYM_MEDIA_MASK | 1) + 69
  const ClearGrab: Sym := (SYM_MEDIA_MASK | 1) + 70
  const Close: Sym := (SYM_MEDIA_MASK | 1) + 71
  const Copy: Sym := (SYM_MEDIA_MASK | 1) + 72
  const Cut: Sym := (SYM_MEDIA_MASK | 1) + 73
  const Display: Sym := (SYM_MEDIA_MASK | 1) + 74
  const DOS: Sym := (SYM_MEDIA_MASK | 1) + 75
  const Documents: Sym := (SYM_MEDIA_MASK | 1) + 76
  const Excel: Sym := (SYM_MEDIA_MASK | 1) + 77
  const Explorer: Sym := (SYM_MEDIA_MASK | 1) + 78
  const Game: Sym := (SYM_MEDIA_MASK | 1) + 79
  const Go: Sym := (SYM_MEDIA_MASK | 1) + 80
  const iTouch: Sym := (SYM_MEDIA_MASK | 1) + 81
  const LogOff: Sym := (SYM_MEDIA_MASK | 1) + 82
  const Market: Sym := (SYM_MEDIA_MASK | 1) + 83
  const Meeting: Sym := (SYM_MEDIA_MASK | 1) + 84
  const MenuKB: Sym := (SYM_MEDIA_MASK | 1) + 85
  const MenuPB: Sym := (SYM_MEDIA_MASK | 1) + 86
  const MySites: Sym := (SYM_MEDIA_MASK | 1) + 87
  const News: Sym := (SYM_MEDIA_MASK | 1) + 88
  const OfficeHome: Sym := (SYM_MEDIA_MASK | 1) + 89
  const Option: Sym := (SYM_MEDIA_MASK | 1) + 90
  const Paste: Sym := (SYM_MEDIA_MASK | 1) + 91
  const Phone: Sym := (SYM_MEDIA_MASK | 1) + 92
  const Calendar: Sym := (SYM_MEDIA_MASK | 1) + 93
  const Reply: Sym := (SYM_MEDIA_MASK | 1) + 94
  const Reload: Sym := (SYM_MEDIA_MASK | 1) + 95
  const RotateWindows: Sym := (SYM_MEDIA_MASK | 1) + 96
  const RotationPB: Sym := (SYM_MEDIA_MASK | 1) + 97
  const RotationKB: Sym := (SYM_MEDIA_MASK | 1) + 98
  const Save: Sym := (SYM_MEDIA_MASK | 1) + 99
  const Send: Sym := (SYM_MEDIA_MASK | 1) + 100
  const Spell: Sym := (SYM_MEDIA_MASK | 1) + 101
  const SplitScreen: Sym := (SYM_MEDIA_MASK | 1) + 102
  const Support: Sym := (SYM_MEDIA_MASK | 1) + 103
  const TaskPane: Sym := (SYM_MEDIA_MASK | 1) + 104
  const Terminal: Sym := (SYM_MEDIA_MASK | 1) + 105
  const Tools: Sym := (SYM_MEDIA_MASK | 1) + 106
  const Travel: Sym := (SYM_MEDIA_MASK | 1) + 107
  const Video: Sym := (SYM_MEDIA_MASK | 1) + 108
  const Word: Sym := (SYM_MEDIA_MASK | 1) + 109
  const Xfer: Sym := (SYM_MEDIA_MASK | 1) + 110
  const ZoomIn: Sym := (SYM_MEDIA_MASK | 1) + 111
  const ZoomOut: Sym := (SYM_MEDIA_MASK | 1) + 112
  const Away: Sym := (SYM_MEDIA_MASK | 1) + 113
  const Messenger: Sym := (SYM_MEDIA_MASK | 1) + 114
  const WebCam: Sym := (SYM_MEDIA_MASK | 1) + 115
  const MailForward: Sym := (SYM_MEDIA_MASK | 1) + 116
  const Pictures: Sym := (SYM_MEDIA_MASK | 1) + 117
  const Music: Sym := (SYM_MEDIA_MASK | 1) + 118
  const Battery: Sym := (SYM_MEDIA_MASK | 1) + 119
  const Bluetooth: Sym := (SYM_MEDIA_MASK | 1) + 120
  const WLAN: Sym := (SYM_MEDIA_MASK | 1) + 121
  const UWB: Sym := (SYM_MEDIA_MASK | 1) + 122
  const AudioForward: Sym := (SYM_MEDIA_MASK | 1) + 123
  const AudioRepeat: Sym := (SYM_MEDIA_MASK | 1) + 124
  const AudioRandomPlay: Sym := (SYM_MEDIA_MASK | 1) + 125
  const Subtitle: Sym := (SYM_MEDIA_MASK | 1) + 126
  const AudioCycleTrack: Sym := (SYM_MEDIA_MASK | 1) + 127
  const Time: Sym := (SYM_MEDIA_MASK | 1) + 128
  const Hibernate: Sym := (SYM_MEDIA_MASK | 1) + 129
  const View: Sym := (SYM_MEDIA_MASK | 1) + 130
  const TopMenu: Sym := (SYM_MEDIA_MASK | 1) + 131
  const PowerDown: Sym := (SYM_MEDIA_MASK | 1) + 132
  const Suspend: Sym := (SYM_MEDIA_MASK | 1) + 133
  const ContrastAdjust: Sym := (SYM_MEDIA_MASK | 1) + 134
  const LaunchG: Sym := (SYM_MEDIA_MASK | 1) + 135
  const LaunchH: Sym := (SYM_MEDIA_MASK | 1) + 136
  const TouchpadToggle: Sym := (SYM_MEDIA_MASK | 1) + 137
  const TouchpadOn: Sym := (SYM_MEDIA_MASK | 1) + 138
  const TouchpadOff: Sym := (SYM_MEDIA_MASK | 1) + 139
  const MicMute: Sym := (SYM_MEDIA_MASK | 1) + 140
  const Red: Sym := (SYM_MEDIA_MASK | 1) + 141
  const Green: Sym := (SYM_MEDIA_MASK | 1) + 142
  const Yellow: Sym := (SYM_MEDIA_MASK | 1) + 143
  const Blue: Sym := (SYM_MEDIA_MASK | 1) + 144
  const ChannelUp: Sym := (SYM_MEDIA_MASK | 1) + 145
  const ChannelDown: Sym := (SYM_MEDIA_MASK | 1) + 146
  const Guide: Sym := (SYM_MEDIA_MASK | 1) + 147
  const Info: Sym := (SYM_MEDIA_MASK | 1) + 148
  const Settings: Sym := (SYM_MEDIA_MASK | 1) + 149
  const MicVolumeUp: Sym := (SYM_MEDIA_MASK | 1) + 150
  const MicVolumeDown: Sym := (SYM_MEDIA_MASK | 1) + 151
  const New: Sym := (SYM_MEDIA_MASK | 1) + 152
  const Open: Sym := (SYM_MEDIA_MASK | 1) + 153
  const Find: Sym := (SYM_MEDIA_MASK | 1) + 154
  const Undo: Sym := (SYM_MEDIA_MASK | 1) + 155
  const Redo: Sym := (SYM_MEDIA_MASK | 1) + 156
  const MediaLast: Sym := (SYM_MEDIA_MASK | 1) + 157
  const Select: Sym := (SYM_MEDIA_MASK | 1) + 158
  const Yes: Sym := (SYM_MEDIA_MASK | 1) + 159
  const No: Sym := (SYM_MEDIA_MASK | 1) + 160
  const Cancel: Sym := (SYM_MEDIA_MASK | 1) + 161
  const Printer: Sym := (SYM_MEDIA_MASK | 1) + 162
  const Execute: Sym := (SYM_MEDIA_MASK | 1) + 163
  const Sleep: Sym := (SYM_MEDIA_MASK | 1) + 164
  const Play: Sym := (SYM_MEDIA_MASK | 1) + 165
  const Zoom: Sym := (SYM_MEDIA_MASK | 1) + 166
  const Exit: Sym := (SYM_MEDIA_MASK | 1) + 167
  const Context1: Sym := (SYM_MEDIA_MASK | 1) + 168
  const Context2: Sym := (SYM_MEDIA_MASK | 1) + 169
  const Context3: Sym := (SYM_MEDIA_MASK | 1) + 170
  const Context4: Sym := (SYM_MEDIA_MASK | 1) + 171
  const Call: Sym := (SYM_MEDIA_MASK | 1) + 172
  const Hangup: Sym := (SYM_MEDIA_MASK | 1) + 173
  const Flip: Sym := (SYM_MEDIA_MASK | 1) + 174
  const ToggleCallHangup: Sym := (SYM_MEDIA_MASK | 1) + 175
  const VoiceDial: Sym := (SYM_MEDIA_MASK | 1) + 176
  const LastNumberRedial: Sym := (SYM_MEDIA_MASK | 1) + 177
  const Camera: Sym := (SYM_MEDIA_MASK | 1) + 178
  const CameraFocus: Sym := (SYM_MEDIA_MASK | 1) + 179

  /** The left, right and combined modifier syms. */
  const ModifierSyms: seq<Sym> := [
    LeftCtrl, RightCtrl, LeftShift, RightShift, LeftMeta, RightMeta, LeftAlt, RightAlt,
    LeftSuper, RightSuper, Ctrl, Shift, Meta, Alt, Super
  ]

  // ---------------------------------------------------------------- properties

  /** A combined modifier sym is the union of its left and right syms, and every modifier sym
      carries the modifiers mask. */
  lemma ModifierSymsAreUnions()
    ensures Ctrl == LeftCtrl | RightCtrl
    ensures Shift == LeftShift | RightShift
    ensures Meta == LeftMeta | RightMeta
    ensures Alt == LeftAlt | RightAlt
    ensures Super == LeftSuper | RightSuper
    ensures forall i | 0 <= i < |ModifierSyms| :: ModifierSyms[i] & SYM_MODS_MASK != 0
  {
  }

  /** The masks that tell the blocks of syms apart. */
  const BLOCK_MASKS: bv32 := SYM_CONTROL_MASK | SYM_KP_MASK | SYM_MEDIA_MASK | SYM_MODS_MASK

  /** `v` carries the block mask `mask` and no other block mask. */
  predicate InBlock(v: Sym, mask: bv32) {
    v & mask != 0 && v & (BLOCK_MASKS & !mask) == 0
  }

  /** The control block runs from `SYM_CONTROL_MASK | 1` (`Escape`) to `F24`, one value per
      variant, and every value in it carries the control mask and no other block mask. */
  lemma ControlBlock()
    ensures Escape == SYM_CONTROL_MASK | 1 && F24 == Escape + 48
    ensures forall v: Sym | Escape <= v <= F24 :: InBlock(v, SYM_CONTROL_MASK)
  {
  }

  /** The keypad block runs from `SYM_KP_MASK | 1` (`Kp_Enter`) to `Kp_9`, one value per
      variant, and every value in it carries the keypad mask and no other block mask. */
  lemma KeypadBlock()
    ensures Kp_Enter == SYM_KP_MASK | 1 && Kp_9 == Kp_Enter + 27
    ensures forall v: Sym | Kp_Enter <= v <= Kp_9 :: InBlock(v, SYM_KP_MASK)
  {
  }

  /** Each Latin-1 sym is the ISO/IEC 8859-1 code point of the character it names. The
      printable characters other than the lower-case letters all have a sym. */
  lemma Latin1SymsAreCodePoints()
    ensures Space as int == ' ' as int && Exclam as int == '!' as int && Quotedbl as int == '"' as int && Numbersign as int == '#' as int
    ensures Dollar as int == '$' as int && Percent as int == '%' as int && Ampersand as int == '&' as int && Apostrophe as int == '\'' as int
    ensures ParenLeft as int == '(' as int && ParenRight as int == ')' as int && Asterisk as int == '*' as int && Plus as int == '+' as int
    ensures Comma as int == ',' as int && Minus as int == '-' as int && Period as int == '.' as int && Slash as int == '/' as int
    ensures D0 as int == '0' as int && D1 as int == '1' as int && D2 as int == '2' as int && D3 as int == '3' as int
    ensures D4 as int == '4' as int && D5 as int == '5' as int && D6 as int == '6' as int && D7 as int == '7' as int
    ensures D8 as int == '8' as int && D9 as int == '9' as int && Colon as int == ':' as int && Semicolon as int == ';' as int
    ensures Less as int == '<' as int && Equal as int == '=' as int && Greater as int == '>' as int && Question as int == '?' as int
    ensures At as int == '@' as int && A as int == 'A' as int && B as int == 'B' as int && C as int == 'C' as int
    ensures D as int == 'D' as int && E as int == 'E' as int && F as int == 'F' as int && G as int == 'G' as int
    ensures H as int == 'H' as int && I as int == 'I' as int && J as int == 'J' as int && K as int == 'K' as int
    ensures L as int == 'L' as int && M as int == 'M' as int && N as int == 'N' as int && O as int == 'O' as int
    ensures P as int == 'P' as int && Q as int == 'Q' as int && R as int == 'R' as int && S as int == 'S' as int
    ensures T as int == 'T' as int && U as int == 'U' as int && V as int == 'V' as int && W as int == 'W' as int
    ensures X as int == 'X' as int && Y as int == 'Y' as int && Z as int == 'Z' as int && BracketLeft as int == '[' as int
    ensures Backslash as int == '\\' as int && BracketRight as int == ']' as int && AsciiCircum as int == '^' as int && Underscore as int == '_' as int
    ensures Grave as int == '`' as int && BraceLeft as int == '{' as int && Bar as int == '|' as int && BraceRight as int == '}' as int
    ensures AsciiTilde as int == '~' as int
  {
  }
}
