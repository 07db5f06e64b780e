/** Keyboard vocabulary of src/key.rs, part one: modifier flags and physical key codes. */
module Key {
  // ---------------------------------------------------------------- Mods

  /** `Mods` is a set of `u32` bit flags. */
  type Mods = bv32

  const LEFT_CTRL: Mods := 0x0000_0001
  const RIGHT_CTRL: Mods := 0x0000_0002
  const CTRL: Mods := LEFT_CTRL | RIGHT_CTRL
  const LEFT_SHIFT: Mods := 0x0000_0004
  const RIGHT_SHIFT: Mods := 0x0000_0008
  const SHIFT: Mods := LEFT_SHIFT | RIGHT_SHIFT
  const LEFT_ALT: Mods := 0x0000_0010
  const RIGHT_ALT: Mods := 0x0000_0020
  const ALT: Mods := LEFT_ALT | RIGHT_ALT
  const SUPER: Mods := 0x0000_0040

  /** The seven primitive flags, in declaration order. */
  const PrimitiveMods: seq<Mods> :=
    [LEFT_CTRL, RIGHT_CTRL, LEFT_SHIFT, RIGHT_SHIFT, LEFT_ALT, RIGHT_ALT, SUPER]

  /** `b` has exactly one bit set. */
  predicate SingleBit(b: bv32) {
    b != 0 && b & (b - 1) == 0
  }

  /** Every primitive modifier is a single bit, and no two of them share a bit. */
  lemma PrimitiveModsAreDistinctBits()
    ensures forall i | 0 <= i < |PrimitiveMods| :: SingleBit(PrimitiveMods[i])
    ensures forall i, j | 0 <= i < j < |PrimitiveMods| :: PrimitiveMods[i] & PrimitiveMods[j] == 0
  {
  }

  /** Each combined modifier holds exactly its left and its right flag, and the groups are
      disjoint from one another and from `SUPER`. */
  lemma CombinedModsAreUnions()
    ensures CTRL & LEFT_CTRL == LEFT_CTRL && CTRL & RIGHT_CTRL == RIGHT_CTRL
    ensures CTRL & !(LEFT_CTRL | RIGHT_CTRL) == 0
    ensures SHIFT & LEFT_SHIFT == LEFT_SHIFT && SHIFT & RIGHT_SHIFT == RIGHT_SHIFT
    ensures SHIFT & !(LEFT_SHIFT | RIGHT_SHIFT) == 0
    ensures ALT & LEFT_ALT == LEFT_ALT && ALT & RIGHT_ALT == RIGHT_ALT
    ensures ALT & !(LEFT_ALT | RIGHT_ALT) == 0
    ensures CTRL & SHIFT == 0 && CTRL & ALT == 0 && SHIFT & ALT == 0
    ensures (CTRL | SHIFT | ALT) & SUPER == 0
  {
  }

  // ---------------------------------------------------------------- Code

  /** A physical key (scancode) on a QWERTY US basis. The discriminants are the usages of the
      Keyboard/Keypad page (0x07) of the USB HID Usage Tables. */
  datatype Code =
      None
    | ErrorRollOver
    | POSTFail
    | ErrorUndefined
    | A
    | B
    | C
    | D
    | E
    | F
    | G
    | H
    | I
    | J
    | K
    | L
    | M
    | N
    | O
    | P
    | Q
    | R
    | S
    | T
    | U
    | V
    | W
    | X
    | Y
    | Z
    | N1
    | N2
    | N3
    | N4
    | N5
    | N6
    | N7
    | N8
    | N9
    | N0
    | Enter
    | Escape
    | Backspace
    | Tab
    | Space
    | Minus
    | Equals
    | LeftBracket
    | RightBracket
    | Backslash
    | UK_Hash
    | Semicolon
    | Quote
    | Grave
    | Comma
    | Period
    | Slash
    | CapsLock
    | F1
    | F2
    | F3
    | F4
    | F5
    | F6
    | F7
    | F8
    | F9
    | F10
    | F11
    | F12
    | PrintScreen
    | ScrollLock
    | Pause
    | Insert
    | Home
    | PageUp
    | Delete
    | End
    | PageDown
    | Right
    | Left
    | Down
    | Up
    | Kp_NumLock
    | Kp_Divide
    | Kp_Multiply
    | Kp_Subtract
    | Kp_Add
    | Kp_Enter
    | Kp_1
    | Kp_2
    | Kp_3
    | Kp_4
    | Kp_5
    | Kp_6
    | Kp_7
    | Kp_8
    | Kp_9
    | Kp_0
    | Kp_Period
    | UK_Backslash
    | Kp_Equal
    | F13
    | F14
    | F15
    | F16
    | F17
    | F18
    | F19
    | F20
    | F21
    | F22
    | F23
    | F24
    | Execute
    | Help
    | Menu
    | Select
    | Stop
    | Again
    | Undo
    | Cut
    | Copy
    | Paste
    | Find
    | Mute
    | VolumeUp
    | VolumeDown
    | LockingCapsLock
    | LockingNumLock
    | LockingScrollLock
    | Kp_Comma
    | Kp_EqualSign
    | International1
    | International2
    | International3
    | International4
    | International5
    | International6
    | International7
    | International8
    | International9
    | LANG1
    | LANG2
    | LANG3
    | LANG4
    | LANG5
    | LANG6
    | LANG7
    | LANG8
    | LANG9
    | AltErase
    | SysReq
    | Cancel
    | Clear
    | Prior
    | Return
    | Separator
    | Out
    | Oper
    | ClearAgain
    | CrSelProps
    | ExSel
    | Kp_00
    | Kp_000
    | ThousandsSep
    | DecimalSep
    | CurrencyUnit
    | CurrencySubUnit
    | Kp_LeftParent
    | Kp_RightParent
    | Kp_LeftCurly
    | Kp_RightCurly
    | Kp_Tab
    | Kp_Backspace
    | Kp_A
    | Kp_B
    | Kp_C
    | Kp_D
    | Kp_E
    | Kp_F
    | Kp_XOR
    | Kp_Pow
    | Kp_Percent
    | Kp_LeftAngle
    | Kp_RightAngle
    | Kp_BitAnd
    | Kp_LogicAnd
    | Kp_BitOr
    | Kp_LogicOr
    | Kp_Colon
    | Kp_Hash
    | Kp_Space
    | Kp_At
    | Kp_Not
    | Kp_MemStore
    | Kp_MemRecall
    | Kp_MemClear
    | Kp_MemAdd
    | Kp_MemSubtract
    | Kp_MemMultiply
    | Kp_MemDivide
    | Kp_PlusMinus
    | Kp_Clear
    | Kp_ClearEntry
    | Kp_Binary
    | Kp_Octal
    | Kp_Decimal
    | Kp_Hexadecimal
    | LeftCtrl
    | LeftShift
    | LeftAlt
    | LeftSuper
    | RightCtrl
    | RightShift
    | RightAlt
    | RightSuper
    | Unknown

  /** The discriminant of a `Code`: every one fits in a byte, so a code can index a
      256-entry table. */
  function CodeValue(c: Code): (v: nat)
    ensures v < 256
  {
    match c
    case None => 0
    case ErrorRollOver => 1
    case POSTFail => 2
    case ErrorUndefined => 3
    case A => 4
    case B => 5
    case C => 6
    case D => 7
    case E => 8
    case F => 9
    case G => 10
    case H => 11
    case I => 12
    case J => 13
    case K => 14
    case L => 15
    case M => 16
    case N => 17
    case O => 18
    case P => 19
    case Q => 20
    case R => 21
    case S => 22
    case T => 23
    case U => 24
    case V => 25
    case W => 26
    case X => 27
    case Y => 28
    case Z => 29
    case N1 => 30
    case N2 => 31
    case N3 => 32
    case N4 => 33
    case N5 => 34
    case N6 => 35
    case N7 => 36
    case N8 => 37
    case N9 => 38
    case N0 => 39
    case Enter => 40
    case Escape => 41
    case Backspace => 42
    case Tab => 43
    case Space => 44
    case Minus => 45
    case Equals => 46
    case LeftBracket => 47
    case RightBracket => 48
    case Backslash => 49
    case UK_Hash => 50
    case Semicolon => 51
    case Quote => 52
    case Grave => 53
    case Comma => 54
    case Period => 55
    case Slash => 56
    case CapsLock => 57
    case F1 => 58
    case F2 => 59
    case F3 => 60
    case F4 => 61
    case F5 => 62
    case F6 => 63
    case F7 => 64
    case F8 => 65
    case F9 => 66
    case F10 => 67
    case F11 => 68
    case F12 => 69
    case PrintScreen => 70
    case ScrollLock => 71
    case Pause => 72
    case Insert => 73
    case Home => 74
    case PageUp => 75
    case Delete => 76
    case End => 77
    case PageDown => 78
    case Right => 79
    case Left => 80
    case Down => 81
    case Up => 82
    case Kp_NumLock => 83
    case Kp_Divide => 84
    case Kp_Multiply => 85
    case Kp_Subtract => 86
    case Kp_Add => 87
    case Kp_Enter => 88
    case Kp_1 => 89
    case Kp_2 => 90
    case Kp_3 => 91
    case Kp_4 => 92
    case Kp_5 => 93
    case Kp_6 => 94
    case Kp_7 => 95
    case Kp_8 => 96
    case Kp_9 => 97
    case Kp_0 => 98
    case Kp_Period => 99
    case UK_Backslash => 100
    case Kp_Equal => 103
    case F13 => 104
    case F14 => 105
    case F15 => 106
    case F16 => 107
    case F17 => 108
    case F18 => 109
    case F19 => 110
    case F20 => 111
    case F21 => 112
    case F22 => 113
    case F23 => 114
    case F24 => 115
    case Execute => 116
    case Help => 117
    case Menu => 118
    case Select => 119
    case Stop => 120
    case Again => 121
    case Undo => 122
    case Cut => 123
    case Copy => 124
    case Paste => 125
    case Find => 126
    case Mute => 127
    case VolumeUp => 128
    case VolumeDown => 129
    case LockingCapsLock => 130
    case LockingNumLock => 131
    case LockingScrollLock => 132
    case Kp_Comma => 133
    case Kp_EqualSign => 134
    case International1 => 135
    case International2 => 136
    case International3 => 137
    case International4 => 138
    case International5 => 139
    case International6 => 140
    case International7 => 141
    case International8 => 142
    case International9 => 143
    case LANG1 => 144
    case LANG2 => 145
    case LANG3 => 146
    case LANG4 => 147
    case LANG5 => 148
    case LANG6 => 149
    case LANG7 => 150
    case LANG8 => 151
    case LANG9 => 152
    case AltErase => 153
    case SysReq => 154
    case Cancel => 155
    case Clear => 156
    case Prior => 157
    case Return => 158
    case Separator => 159
    case Out => 160
    case Oper => 161
    case ClearAgain => 162
    case CrSelProps => 163
    case ExSel => 164
    case Kp_00 => 176
    case Kp_000 => 177
    case ThousandsSep => 178
    case DecimalSep => 179
    case CurrencyUnit => 180
    case CurrencySubUnit => 181
    case Kp_LeftParent => 182
    case Kp_RightParent => 183
    case Kp_LeftCurly => 184
    case Kp_RightCurly => 185
    case Kp_Tab => 186
    case Kp_Backspace => 187
    case Kp_A => 188
    case Kp_B => 189
    case Kp_C => 190
    case Kp_D => 191
    case Kp_E => 192
    case Kp_F => 193
    case Kp_XOR => 194
    case Kp_Pow => 195
    case Kp_Percent => 196
    case Kp_LeftAngle => 197
    case Kp_RightAngle => 198
    case Kp_BitAnd => 199
    case Kp_LogicAnd => 200
    case Kp_BitOr => 201
    case Kp_LogicOr => 202
    case Kp_Colon => 203
    case Kp_Hash => 204
    case Kp_Space => 205
    case Kp_At => 206
    case Kp_Not => 207
    case Kp_MemStore => 208
    case Kp_MemRecall => 209
    case Kp_MemClear => 210
    case Kp_MemAdd => 211
    case Kp_MemSubtract => 212
    case Kp_MemMultiply => 213
    case Kp_MemDivide => 214
    case Kp_PlusMinus => 215
    case Kp_Clear => 216
    case Kp_ClearEntry => 217
    case Kp_Binary => 218
    case Kp_Octal => 219
    case Kp_Decimal => 220
    case Kp_Hexadecimal => 221
    case LeftCtrl => 224
    case LeftShift => 225
    case LeftAlt => 226
    case LeftSuper => 227
    case RightCtrl => 228
    case RightShift => 229
    case RightAlt => 230
    case RightSuper => 231
    case Unknown => 255
  }
}
