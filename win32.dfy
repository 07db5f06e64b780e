/** The slice of the Win32 API (as the `winapi` crate exposes it) that the Win32 display and
    platform code relies on: the `RECT` value, the constants it passes, and the native calls it
    makes, recorded as values so that a model can keep a log of them. */
module Win32 {
  /** `RECT`: edges in screen or client coordinates. */
  datatype Rect = Rect(left: int, top: int, right: int, bottom: int)

  /** A `RECT` with every edge at 0 (`mem::zeroed()`). */
  const ZERO_RECT: Rect := Rect(0, 0, 0, 0)

  // window styles (`DWORD`)
  const WS_MAXIMIZE: bv32 := 0x0100_0000
  const WS_MINIMIZE: bv32 := 0x2000_0000
  const WS_CAPTION: bv32 := 0x00C0_0000
  const WS_THICKFRAME: bv32 := 0x0004_0000
  const WS_OVERLAPPEDWINDOW: bv32 := 0x00CF_0000

  // extended window styles (`DWORD`)
  const WS_EX_DLGMODALFRAME: bv32 := 0x0000_0001
  const WS_EX_WINDOWEDGE: bv32 := 0x0000_0100
  const WS_EX_CLIENTEDGE: bv32 := 0x0000_0200
  const WS_EX_STATICEDGE: bv32 := 0x0002_0000
  const WS_EX_OVERLAPPEDWINDOW: bv32 := 0x0000_0300

  /** `CW_USEDEFAULT` as the `c_int` the window-creation call receives. */
  const CW_USEDEFAULT: int := -0x8000_0000

  // `GetWindowLongPtrW` / `SetWindowLongPtrW` indices
  const GWL_STYLE: int := -16
  const GWL_EXSTYLE: int := -20

  // `ShowWindow` commands
  const SW_SHOWNORMAL: int := 1
  const SW_MAXIMIZE: int := 3
  const SW_MINIMIZE: int := 6

  // `SetWindowPos` flags
  const SWP_NOZORDER: bv32 := 0x0004
  const SWP_NOACTIVATE: bv32 := 0x0010
  const SWP_FRAMECHANGED: bv32 := 0x0020

  // messages and their parameters
  const WM_SIZE: nat := 0x0005
  const WM_CLOSE: nat := 0x0010
  const WM_SYSCOMMAND: nat := 0x0112
  const SC_MAXIMIZE: nat := 0xF030
  const SC_RESTORE: nat := 0xF120
  const SIZE_RESTORED: nat := 0
  const SIZE_MINIMIZED: nat := 1
  const SIZE_MAXIMIZED: nat := 2

  /** A window handle; 0 is the null handle. */
  type Hwnd = nat

  /** A native call, with the arguments that matter to the caller's logic. */
  datatype Call =
    | RegisterClassEx(className: string)
    | CreateWindowEx(exStyle: bv32, className: string, title: string, style: bv32,
                     x: int, y: int, w: int, h: int)
    | ShowWindow(hwnd: Hwnd, cmd: int)
    | SetWindowText(hwnd: Hwnd, text: string)
    | SetWindowLong(hwnd: Hwnd, index: int, value: bv32)
    | SetWindowPos(hwnd: Hwnd, x: int, y: int, w: int, h: int, flags: bv32)
    | SendMessage(hwnd: Hwnd, msg: nat, wparam: nat)
    | DestroyWindow(hwnd: Hwnd)
    | TranslateDispatch
}
