/** Win32 keyboard translation tables of src/display/win32/keymap.rs: scancode to `Code`
    and virtual-key code to `Sym`. */
module Keymap {
  import Key
  import KeySym

  /** `code(scancode)`: the entry of the 256-entry `CODES` table at `scancode`, which the
      caller must keep below 256. The table is laid out in rows of 16 entries. */
  function Code(scancode: nat): (c: Key.Code)
    requires scancode < 256
    ensures 0x59 <= scancode ==> c == Key.Code.Unknown
  {
    match scancode / 16
    case 0x0 =>
      (match scancode % 16
       case 0 => Key.Code.Unknown
       case 1 => Key.Code.Escape
       case 2 => Key.Code.N1
       case 3 => Key.Code.N2
       case 4 => Key.Code.N3
       case 5 => Key.Code.N4
       case 6 => Key.Code.N5
       case 7 => Key.Code.N6
       case 8 => Key.Code.N7
       case 9 => Key.Code.N8
       case 10 => Key.Code.N9
       case 11 => Key.Code.N0
       case 12 => Key.Code.Minus
       case 13 => Key.Code.Equals
       case 14 => Key.Code.Backspace
       case _ => Key.Code.Tab)
    case 0x1 =>
      (match scancode % 16
       case 0 => Key.Code.Q
       case 1 => Key.Code.W
       case 2 => Key.Code.E
       case 3 => Key.Code.R
       case 4 => Key.Code.T
       case 5 => Key.Code.Y
       case 6 => Key.Code.U
       case 7 => Key.Code.I
       case 8 => Key.Code.O
       case 9 => Key.Code.P
       case 10 => Key.Code.LeftBracket
       case 11 => Key.Code.RightBracket
       case 12 => Key.Code.Enter
       case 13 => Key.Code.LeftCtrl
       case 14 => Key.Code.A
       case _ => Key.Code.S)
    case 0x2 =>
      (match scancode % 16
       case 0 => Key.Code.D
       case 1 => Key.Code.F
       case 2 => Key.Code.G
       case 3 => Key.Code.H
       case 4 => Key.Code.J
       case 5 => Key.Code.K
       case 6 => Key.Code.L
       case 7 => Key.Code.Semicolon
       case 8 => Key.Code.Quote
       case 9 => Key.Code.Grave
       case 10 => Key.Code.LeftShift
       case 11 => Key.Code.UK_Hash
       case 12 => Key.Code.Z
       case 13 => Key.Code.X
       case 14 => Key.Code.C
       case _ => Key.Code.V)
    case 0x3 =>
      (match scancode % 16
       case 0 => Key.Code.B
       case 1 => Key.Code.N
       case 2 => Key.Code.M
       case 3 => Key.Code.Comma
       case 4 => Key.Code.Period
       case 5 => Key.Code.Slash
       case 6 => Key.Code.RightShift
       case 7 => Key.Code.PrintScreen
       case 8 => Key.Code.LeftAlt
       case 9 => Key.Code.Space
       case 10 => Key.Code.CapsLock
       case 11 => Key.Code.F1
       case 12 => Key.Code.F2
       case 13 => Key.Code.F3
       case 14 => Key.Code.F4
       case _ => Key.Code.F5)
    case 0x4 =>
      (match scancode % 16
       case 0 => Key.Code.F6
       case 1 => Key.Code.F7
       case 2 => Key.Code.F8
       case 3 => Key.Code.F9
       case 4 => Key.Code.F10
       case 5 => Key.Code.Kp_NumLock
       case 6 => Key.Code.ScrollLock
       case 7 => Key.Code.Home
       case 8 => Key.Code.Up
       case 9 => Key.Code.PageUp
       case 10 => Key.Code.Kp_Subtract
       case 11 => Key.Code.Left
       case 12 => Key.Code.Kp_5
       case 13 => Key.Code.Right
       case 14 => Key.Code.Kp_Add
       case _ => Key.Code.End)
    case 0x5 =>
      (match scancode % 16
       case 0 => Key.Code.Down
       case 1 => Key.Code.PageDown
       case 2 => Key.Code.Insert
       case 3 => Key.Code.Delete
       case 4 => Key.Code.Unknown
       case 5 => Key.Code.Unknown
       case 6 => Key.Code.Kp_Add
       case 7 => Key.Code.F11
       case 8 => Key.Code.F12
       case 9 => Key.Code.Unknown
       case 10 => Key.Code.Unknown
       case 11 => Key.Code.Unknown
       case 12 => Key.Code.Unknown
       case 13 => Key.Code.Unknown
       case 14 => Key.Code.Unknown
       case _ => Key.Code.Unknown)
    case 0x6 =>
      (match scancode % 16
       case 0 => Key.Code.Unknown
       case 1 => Key.Code.Unknown
       case 2 => Key.Code.Unknown
       case 3 => Key.Code.Unknown
       case 4 => Key.Code.Unknown
       case 5 => Key.Code.Unknown
       case 6 => Key.Code.Unknown
       case 7 => Key.Code.Unknown
       case 8 => Key.Code.Unknown
       case 9 => Key.Code.Unknown
       case 10 => Key.Code.Unknown
       case 11 => Key.Code.Unknown
       case 12 => Key.Code.Unknown
       case 13 => Key.Code.Unknown
       case 14 => Key.Code.Unknown
       case _ => Key.Code.Unknown)
    case 0x7 =>
      (match scancode % 16
       case 0 => Key.Code.Unknown
       case 1 => Key.Code.Unknown
       case 2 => Key.Code.Unknown
       case 3 => Key.Code.Unknown
       case 4 => Key.Code.Unknown
       case 5 => Key.Code.Unknown
       case 6 => Key.Code.Unknown
       case 7 => Key.Code.Unknown
       case 8 => Key.Code.Unknown
       case 9 => Key.Code.Unknown
       case 10 => Key.Code.Unknown
       case 11 => Key.Code.Unknown
       case 12 => Key.Code.Unknown
       case 13 => Key.Code.Unknown
       case 14 => Key.Code.Unknown
       case _ => Key.Code.Unknown)
    case 0x8 =>
      (match scancode % 16
       case 0 => Key.Code.Unknown
       case 1 => Key.Code.Unknown
       case 2 => Key.Code.Unknown
       case 3 => Key.Code.Unknown
       case 4 => Key.Code.Unknown
       case 5 => Key.Code.Unknown
       case 6 => Key.Code.Unknown
       case 7 => Key.Code.Unknown
       case 8 => Key.Code.Unknown
       case 9 => Key.Code.Unknown
       case 10 => Key.Code.Unknown
       case 11 => Key.Code.Unknown
       case 12 => Key.Code.Unknown
       case 13 => Key.Code.Unknown
       case 14 => Key.Code.Unknown
       case _ => Key.Code.Unknown)
    case 0x9 =>
      (match scancode % 16
       case 0 => Key.Code.Unknown
       case 1 => Key.Code.Unknown
       case 2 => Key.Code.Unknown
       case 3 => Key.Code.Unknown
       case 4 => Key.Code.Unknown
       case 5 => Key.Code.Unknown
       case 6 => Key.Code.Unknown
       case 7 => Key.Code.Unknown
       case 8 => Key.Code.Unknown
       case 9 => Key.Code.Unknown
       case 10 => Key.Code.Unknown
       case 11 => Key.Code.Unknown
       case 12 => Key.Code.Unknown
       case 13 => Key.Code.Unknown
       case 14 => Key.Code.Unknown
       case _ => Key.Code.Unknown)
    case 0xa =>
      (match scancode % 16
       case 0 => Key.Code.Unknown
       case 1 => Key.Code.Unknown
       case 2 => Key.Code.Unknown
       case 3 => Key.Code.Unknown
       case 4 => Key.Code.Unknown
       case 5 => Key.Code.Unknown
       case 6 => Key.Code.Unknown
       case 7 => Key.Code.Unknown
       case 8 => Key.Code.Unknown
       case 9 => Key.Code.Unknown
       case 10 => Key.Code.Unknown
       case 11 => Key.Code.Unknown
       case 12 => Key.Code.Unknown
       case 13 => Key.Code.Unknown
       case 14 => Key.Code.Unknown
       case _ => Key.Code.Unknown)
    case 0xb =>
      (match scancode % 16
       case 0 => Key.Code.Unknown
       case 1 => Key.Code.Unknown
       case 2 => Key.Code.Unknown
       case 3 => Key.Code.Unknown
       case 4 => Key.Code.Unknown
       case 5 => Key.Code.Unknown
       case 6 => Key.Code.Unknown
       case 7 => Key.Code.Unknown
       case 8 => Key.Code.Unknown
       case 9 => Key.Code.Unknown
       case 10 => Key.Code.Unknown
       case 11 => Key.Code.Unknown
       case 12 => Key.Code.Unknown
       case 13 => Key.Code.Unknown
       case 14 => Key.Code.Unknown
       case _ => Key.Code.Unknown)
    case 0xc =>
      (match scancode % 16
       case 0 => Key.Code.Unknown
       case 1 => Key.Code.Unknown
       case 2 => Key.Code.Unknown
       case 3 => Key.Code.Unknown
       case 4 => Key.Code.Unknown
       case 5 => Key.Code.Unknown
       case 6 => Key.Code.Unknown
       case 7 => Key.Code.Unknown
       case 8 => Key.Code.Unknown
       case 9 => Key.Code.Unknown
       case 10 => Key.Code.Unknown
       case 11 => Key.Code.Unknown
       case 12 => Key.Code.Unknown
       case 13 => Key.Code.Unknown
       case 14 => Key.Code.Unknown
       case _ => Key.Code.Unknown)
    case 0xd =>
      (match scancode % 16
       case 0 => Key.Code.Unknown
       case 1 => Key.Code.Unknown
       case 2 => Key.Code.Unknown
       case 3 => Key.Code.Unknown
       case 4 => Key.Code.Unknown
       case 5 => Key.Code.Unknown
       case 6 => Key.Code.Unknown
       case 7 => Key.Code.Unknown
       case 8 => Key.Code.Unknown
       case 9 => Key.Code.Unknown
       case 10 => Key.Code.Unknown
       case 11 => Key.Code.Unknown
       case 12 => Key.Code.Unknown
       case 13 => Key.Code.Unknown
       case 14 => Key.Code.Unknown
       case _ => Key.Code.Unknown)
    case 0xe =>
      (match scancode % 16
       case 0 => Key.Code.Unknown
       case 1 => Key.Code.Unknown
       case 2 => Key.Code.Unknown
       case 3 => Key.Code.Unknown
       case 4 => Key.Code.Unknown
       case 5 => Key.Code.Unknown
       case 6 => Key.Code.Unknown
       case 7 => Key.Code.Unknown
       case 8 => Key.Code.Unknown
       case 9 => Key.Code.Unknown
       case 10 => Key.Code.Unknown
       case 11 => Key.Code.Unknown
       case 12 => Key.Code.Unknown
       case 13 => Key.Code.Unknown
       case 14 => Key.Code.Unknown
       case _ => Key.Code.Unknown)
    case _ =>
      (match scancode % 16
       case 0 => Key.Code.Unknown
       case 1 => Key.Code.Unknown
       case 2 => Key.Code.Unknown
       case 3 => Key.Code.Unknown
       case 4 => Key.Code.Unknown
       case 5 => Key.Code.Unknown
       case 6 => Key.Code.Unknown
       case 7 => Key.Code.Unknown
       case 8 => Key.Code.Unknown
       case 9 => Key.Code.Unknown
       case 10 => Key.Code.Unknown
       case 11 => Key.Code.Unknown
       case 12 => Key.Code.Unknown
       case 13 => Key.Code.Unknown
       case 14 => Key.Code.Unknown
       case _ => Key.Code.Unknown)
  }

  /** `sym(vkey)`: the entry of the 256-entry `SYMS` table at `vkey`, which the caller must
      keep below 256. The table is laid out in rows of 16 entries. */
  function Sym(vkey: nat): (sym: KeySym.Sym)
    requires vkey < 256
    ensures 0x30 <= vkey <= 0x39 || 0x41 <= vkey <= 0x5A ==> sym as int == vkey
  {
    match vkey / 16
    case 0x0 =>
      (match vkey % 16
       case 0 => KeySym.Unknown
       case 1 => KeySym.Unknown
       case 2 => KeySym.Unknown
       case 3 => KeySym.Cancel
       case 4 => KeySym.Unknown
       case 5 => KeySym.Unknown
       case 6 => KeySym.Unknown
       case 7 => KeySym.Unknown
       case 8 => KeySym.Backspace
       case 9 => KeySym.Tab
       case 10 => KeySym.Unknown
       case 11 => KeySym.Unknown
       case 12 => KeySym.Clear
       case 13 => KeySym.Return
       case 14 => KeySym.Unknown
       case _ => KeySym.Unknown)
    case 0x1 =>
      (match vkey % 16
       case 0 => KeySym.Shift
       case 1 => KeySym.Ctrl
       case 2 => KeySym.Alt
       case 3 => KeySym.Pause
       case 4 => KeySym.CapsLock
       case 5 => KeySym.Unknown
       case 6 => KeySym.Unknown
       case 7 => KeySym.Unknown
       case 8 => KeySym.Unknown
       case 9 => KeySym.Unknown
       case 10 => KeySym.Unknown
       case 11 => KeySym.Escape
       case 12 => KeySym.Unknown
       case 13 => KeySym.Unknown
       case 14 => KeySym.Unknown
       case _ => KeySym.ModeSwitch)
    case 0x2 =>
      (match vkey % 16
       case 0 => KeySym.Space
       case 1 => KeySym.PageUp
       case 2 => KeySym.PageDown
       case 3 => KeySym.End
       case 4 => KeySym.Home
       case 5 => KeySym.Left
       case 6 => KeySym.Up
       case 7 => KeySym.Right
       case 8 => KeySym.Down
       case 9 => KeySym.Select
       case 10 => KeySym.Printer
       case 11 => KeySym.Execute
       case 12 => KeySym.Print
       case 13 => KeySym.Insert
       case 14 => KeySym.Delete
       case _ => KeySym.Help)
    case 0x3 =>
      (match vkey % 16
       case 0 => KeySym.D0
       case 1 => KeySym.D1
       case 2 => KeySym.D2
       case 3 => KeySym.D3
       case 4 => KeySym.D4
       case 5 => KeySym.D5
       case 6 => KeySym.D6
       case 7 => KeySym.D7
       case 8 => KeySym.D8
       case 9 => KeySym.D9
       case 10 => KeySym.Unknown
       case 11 => KeySym.Unknown
       case 12 => KeySym.Unknown
       case 13 => KeySym.Unknown
       case 14 => KeySym.Unknown
       case _ => KeySym.Unknown)
    case 0x4 =>
      (match vkey % 16
       case 0 => KeySym.Unknown
       case 1 => KeySym.A
       case 2 => KeySym.B
       case 3 => KeySym.C
       case 4 => KeySym.D
       case 5 => KeySym.E
       case 6 => KeySym.F
       case 7 => KeySym.G
       case 8 => KeySym.H
       case 9 => KeySym.I
       case 10 => KeySym.J
       case 11 => KeySym.K
       case 12 => KeySym.L
       case 13 => KeySym.M
       case 14 => KeySym.N
       case _ => KeySym.O)
    case 0x5 =>
      (match vkey % 16
       case 0 => KeySym.P
       case 1 => KeySym.Q
       case 2 => KeySym.R
       case 3 => KeySym.S
       case 4 => KeySym.T
       case 5 => KeySym.U
       case 6 => KeySym.V
       case 7 => KeySym.W
       case 8 => KeySym.X
       case 9 => KeySym.Y
       case 10 => KeySym.Z
       case 11 => KeySym.LeftSuper
       case 12 => KeySym.RightSuper
       case 13 => KeySym.Menu
       case 14 => KeySym.Unknown
       case _ => KeySym.Sleep)
    case 0x6 =>
      (match vkey % 16
       case 0 => KeySym.Kp_0
       case 1 => KeySym.Kp_1
       case 2 => KeySym.Kp_2
       case 3 => KeySym.Kp_3
       case 4 => KeySym.Kp_4
       case 5 => KeySym.Kp_5
       case 6 => KeySym.Kp_6
       case 7 => KeySym.Kp_7
       case 8 => KeySym.Kp_8
       case 9 => KeySym.Kp_9
       case 10 => KeySym.Kp_Multiply
       case 11 => KeySym.Kp_Add
       case 12 => KeySym.Kp_Separator
       case 13 => KeySym.Kp_Subtract
       case 14 => KeySym.Kp_Decimal
       case _ => KeySym.Kp_Divide)
    case 0x7 =>
      (match vkey % 16
       case 0 => KeySym.F1
       case 1 => KeySym.F2
       case 2 => KeySym.F3
       case 3 => KeySym.F4
       case 4 => KeySym.F5
       case 5 => KeySym.F6
       case 6 => KeySym.F7
       case 7 => KeySym.F8
       case 8 => KeySym.F9
       case 9 => KeySym.F10
       case 10 => KeySym.F11
       case 11 => KeySym.F12
       case 12 => KeySym.F13
       case 13 => KeySym.F14
       case 14 => KeySym.F15
       case _ => KeySym.F16)
    case 0x8 =>
      (match vkey % 16
       case 0 => KeySym.F17
       case 1 => KeySym.F18
       case 2 => KeySym.F19
       case 3 => KeySym.F20
       case 4 => KeySym.F21
       case 5 => KeySym.F22
       case 6 => KeySym.F23
       case 7 => KeySym.F24
       case 8 => KeySym.Unknown
       case 9 => KeySym.Unknown
       case 10 => KeySym.Unknown
       case 11 => KeySym.Unknown
       case 12 => KeySym.Unknown
       case 13 => KeySym.Unknown
       case 14 => KeySym.Unknown
       case _ => KeySym.Unknown)
    case 0x9 =>
      (match vkey % 16
       case 0 => KeySym.NumLock
       case 1 => KeySym.ScrollLock
       case 2 => KeySym.Unknown
       case 3 => KeySym.Unknown
       case 4 => KeySym.Unknown
       case 5 => KeySym.Unknown
       case 6 => KeySym.Unknown
       case 7 => KeySym.Unknown
       case 8 => KeySym.Unknown
       case 9 => KeySym.Unknown
       case 10 => KeySym.Unknown
       case 11 => KeySym.Unknown
       case 12 => KeySym.Unknown
       case 13 => KeySym.Unknown
       case 14 => KeySym.Unknown
       case _ => KeySym.Unknown)
    case 0xa =>
      (match vkey % 16
       case 0 => KeySym.LeftShift
       case 1 => KeySym.RightShift
       case 2 => KeySym.LeftCtrl
       case 3 => KeySym.RightCtrl
       case 4 => KeySym.LeftAlt
       case 5 => KeySym.RightAlt
       case 6 => KeySym.Unknown
       case 7 => KeySym.Unknown
       case 8 => KeySym.Unknown
       case 9 => KeySym.Unknown
       case 10 => KeySym.Unknown
       case 11 => KeySym.Unknown
       case 12 => KeySym.Unknown
       case 13 => KeySym.VolumeMute
       case 14 => KeySym.VolumeDown
       case _ => KeySym.VolumeUp)
    case 0xb =>
      (match vkey % 16
       case 0 => KeySym.MediaNext
       case 1 => KeySym.MediaPrevious
       case 2 => KeySym.MediaStop
       case 3 => KeySym.MediaPlay
       case 4 => KeySym.LaunchMail
       case 5 => KeySym.LaunchMedia
       case 6 => KeySym.Launch0
       case 7 => KeySym.Launch1
       case 8 => KeySym.Unknown
       case 9 => KeySym.Unknown
       case 10 => KeySym.Semicolon
       case 11 => KeySym.Plus
       case 12 => KeySym.Comma
       case 13 => KeySym.Minus
       case 14 => KeySym.Period
       case _ => KeySym.Slash)
    case 0xc =>
      (match vkey % 16
       case 0 => KeySym.AsciiTilde
       case 1 => KeySym.Unknown
       case 2 => KeySym.Unknown
       case 3 => KeySym.Unknown
       case 4 => KeySym.Unknown
       case 5 => KeySym.Unknown
       case 6 => KeySym.Unknown
       case 7 => KeySym.Unknown
       case 8 => KeySym.Unknown
       case 9 => KeySym.Unknown
       case 10 => KeySym.Unknown
       case 11 => KeySym.Unknown
       case 12 => KeySym.Unknown
       case 13 => KeySym.Unknown
       case 14 => KeySym.Unknown
       case _ => KeySym.Unknown)
    case 0xd =>
      (match vkey % 16
       case 0 => KeySym.Unknown
       case 1 => KeySym.Unknown
       case 2 => KeySym.Unknown
       case 3 => KeySym.Unknown
       case 4 => KeySym.Unknown
       case 5 => KeySym.Unknown
       case 6 => KeySym.Unknown
       case 7 => KeySym.Unknown
       case 8 => KeySym.Unknown
       case 9 => KeySym.Unknown
       case 10 => KeySym.Unknown
       case 11 => KeySym.BracketLeft
       case 12 => KeySym.Bar
       case 13 => KeySym.BracketRight
       case 14 => KeySym.Unknown
       case _ => KeySym.Unknown)
    case 0xe =>
      (match vkey % 16
       case 0 => KeySym.Unknown
       case 1 => KeySym.Unknown
       case 2 => KeySym.Unknown
       case 3 => KeySym.Unknown
       case 4 => KeySym.Unknown
       case 5 => KeySym.Unknown
       case 6 => KeySym.Unknown
       case 7 => KeySym.Unknown
       case 8 => KeySym.Unknown
       case 9 => KeySym.Unknown
       case 10 => KeySym.Unknown
       case 11 => KeySym.Unknown
       case 12 => KeySym.Unknown
       case 13 => KeySym.Unknown
       case 14 => KeySym.Unknown
       case _ => KeySym.Unknown)
    case _ =>
      (match vkey % 16
       case 0 => KeySym.Unknown
       case 1 => KeySym.Unknown
       case 2 => KeySym.Unknown
       case 3 => KeySym.Unknown
       case 4 => KeySym.Unknown
       case 5 => KeySym.Unknown
       case 6 => KeySym.Unknown
       case 7 => KeySym.Unknown
       case 8 => KeySym.Unknown
       case 9 => KeySym.Unknown
       case 10 => KeySym.Play
       case 11 => KeySym.Zoom
       case 12 => KeySym.Unknown
       case 13 => KeySym.Unknown
       case 14 => KeySym.Clear
       case _ => KeySym.Unknown)
  }

  /** The code of function key F`n`, for the twelve keys of a PC keyboard. */
  function FunctionKeyCode(n: nat): Key.Code
    requires 1 <= n <= 12
  {
    match n
    case 1 => Key.Code.F1
    case 2 => Key.Code.F2
    case 3 => Key.Code.F3
    case 4 => Key.Code.F4
    case 5 => Key.Code.F5
    case 6 => Key.Code.F6
    case 7 => Key.Code.F7
    case 8 => Key.Code.F8
    case 9 => Key.Code.F9
    case 10 => Key.Code.F10
    case 11 => Key.Code.F11
    case _ => Key.Code.F12
  }

  /** Scancodes 0x3B to 0x44 are F1 to F10, in order. */
  lemma FunctionKeyScancodes()
    ensures forall s | 0x3B <= s <= 0x44 :: Code(s) == FunctionKeyCode(s - 0x3A)
  {
  }

  /** Scancodes 0x57 and 0x58 are F11 and F12. */
  lemma F11F12Scancodes()
    ensures Code(0x57) == FunctionKeyCode(11) && Code(0x58) == FunctionKeyCode(12)
  {
  }

  /** Every scancode from 0x59 up is unknown. */
  lemma HighScancodesUnknown()
    ensures forall s | 0x59 <= s < 256 :: Code(s) == Key.Code.Unknown
  {
  }

  /** The virtual keys of the digits translate to the sym whose value is the virtual key
      itself, that is, the digit's code point. */
  lemma DigitKeys()
    ensures forall v | 0x30 <= v <= 0x39 :: Sym(v) as int == v
  {
  }

  /** The virtual keys of the letters translate to the sym whose value is the virtual key
      itself, that is, the upper-case letter's code point. */
  lemma LetterKeys()
    ensures forall v | 0x41 <= v <= 0x5A :: Sym(v) as int == v
  {
  }

  /** Virtual keys 0x60 to 0x69 are the keypad digits `Kp_0` to `Kp_9`, in order. */
  lemma KeypadDigitKeys()
    ensures forall v | 0x60 <= v <= 0x69 :: Sym(v) as int == KeySym.Kp_0 as int + (v - 0x60)
  {
  }

  /** Virtual keys 0x70 to 0x87 are the function keys `F1` to `F24`, in order. */
  lemma FunctionKeys()
    ensures forall v | 0x70 <= v <= 0x87 :: Sym(v) as int == KeySym.F1 as int + (v - 0x70)
  {
  }
}
