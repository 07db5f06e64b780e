/** The Win32 platform (src/platform/win32platform/mod.rs): conversions between `RECT` and
    `IRect`, the cache of registered window classes, the windows keyed by their handle, the
    handling of `WM_CLOSE` and the exit code, and the message loop.

    Native calls are appended to a log (`Native`); what the system answers (handles,
    `GetMessageW` results) is a parameter. */
module Win32Platform {
  import opened Common
  import Geometry
  import opened Win32
  import Window

  // ---------------------------------------------------------------------------------------
  // RECT and IRect

  /** `From<RECT> for IRect`: origin at the top-left corner, size from the edges. */
  function ToIRect(r: Win32.Rect): (ir: Geometry.Rect)
    ensures Geometry.RectPoint(ir) == Geometry.Point(r.left, r.top)
    ensures ir.x + ir.w == r.right && ir.y + ir.h == r.bottom
  {
    Geometry.NewRect(r.left, r.top, r.right - r.left, r.bottom - r.top)
  }

  /** `From<IRect> for RECT`: edges from the origin and the size. */
  function ToRect(r: Geometry.Rect): (rr: Win32.Rect)
    ensures rr.left == r.x && rr.top == r.y
    ensures rr.right - rr.left == r.w && rr.bottom - rr.top == r.h
  {
    Win32.Rect(r.x, r.y, r.x + r.w, r.y + r.h)
  }

  /** `Area for RECT`. */
  function Area(r: Win32.Rect): (a: int)
    ensures a == ToIRect(r).w * ToIRect(r).h
  {
    (r.right - r.left) * (r.bottom - r.top)
  }

  /** Converting a `RECT` to an `IRect` and back gives it back, and the converted rect's
      size spans the `RECT`'s area. */
  lemma RectRoundTrip(r: Win32.Rect)
    ensures ToRect(ToIRect(r)) == r
    ensures Area(r) == ToIRect(r).w * ToIRect(r).h
  {
  }

  /** Converting an `IRect` to a `RECT` and back gives it back, and the `RECT`'s area is the
      rect's width times its height. */
  lemma IRectRoundTrip(r: Geometry.Rect)
    ensures ToIRect(ToRect(r)) == r
    ensures Area(ToRect(r)) == r.w * r.h
  {
  }

  // ---------------------------------------------------------------------------------------
  // Platform state

  /** The window class every window is created with. */
  const CLASS_NAME: string := "OwsWindowClassName"

  /** The log of native calls. */
  class Native {
    var calls: seq<Call>

    constructor ()
      ensures calls == []
    {
      calls := [];
    }
  }

  /** What `DefWindowProcW` does with a message: the default processing of `WM_CLOSE`
      destroys the window. */
  function DefaultProcessing(hwnd: Hwnd, msg: nat): seq<Call>
  {
    if msg == WM_CLOSE then [DestroyWindow(hwnd)] else []
  }

  /** `Win32Window`: its handle, its base with the close handler, and its title. */
  class Win32Window {
    const hwnd: Hwnd
    const native: Native
    const base: Window.WindowBase
    var title: string

    /** `Win32Window::new(hwnd)`: an empty title and no close handler. */
    constructor (hwnd: Hwnd, native: Native)
      ensures this.hwnd == hwnd && this.native == native && title == ""
      ensures fresh(base) && fresh(base.onClose) && !base.onClose.IsSet()
    {
      this.hwnd := hwnd;
      this.native := native;
      base := new Window.WindowBase();
      title := "";
    }

    /** `title()`: the title last stored. */
    function Title(): (t: string)
      reads this
      ensures t == title
    {
      title
    }

    /** `set_title(t)`: afterwards `title()` answers `t`; no native call is made. */
    method SetTitle(t: string)
      modifies this
      ensures Title() == t
    {
      title := t;
    }

    /** `state()`: this platform always reports a hidden window. */
    function State(): (s: Window.State)
      ensures s == Window.Hidden
    {
      Window.Hidden
    }

    /** `set_state(state)`: shows the window normally, whatever state is asked for. */
    method SetState(state: Window.State)
      modifies native
      ensures native.calls == old(native.calls) + [ShowWindow(hwnd, SW_SHOWNORMAL)]
    {
      native.calls := native.calls + [ShowWindow(hwnd, SW_SHOWNORMAL)];
    }
  }

  /** What a window's close handler answers; `true` when it has none (`fire_or(true)`). */
  function CloseAnswer(w: Win32Window): bool
    reads w.base.onClose
  {
    match w.base.onClose.sig
    case Some(f) => f()
    case None => true
  }

  /** `Win32SharedPlatform`: the windows keyed by handle and the exit code. */
  class SharedPlatform {
    var windows: map<Hwnd, Win32Window>
    var exitCode: Option<int>

    constructor ()
      ensures windows == map[] && exitCode == None
    {
      windows := map[];
      exitCode := None;
    }

    /** Every window is registered under its own non-null handle. */
    predicate Valid()
      reads this
    {
      forall h | h in windows :: h != 0 && windows[h].hwnd == h
    }

    /** The close rule shared by both versions of `wnd_proc`: a window leaves the map when
        its handler agrees, and the exit code becomes 0 when that empties the map and no code
        was set. */
    method CloseWindow(hwnd: Hwnd) returns (closed: bool)
      requires Valid() && hwnd in windows
      modifies this
      ensures Valid()
      ensures closed == old(CloseAnswer(windows[hwnd]))
      ensures windows == if closed then old(windows) - {hwnd} else old(windows)
      ensures exitCode ==
        if closed && windows == map[] && old(exitCode).None? then Some(0) else old(exitCode)
    {
      var w := windows[hwnd];
      closed := w.base.onClose.FireOr(true);
      if closed {
        windows := windows - {hwnd};
        if windows == map[] && exitCode.None? {
          exitCode := Some(0);
        }
      }
    }

    /** `wnd_proc` as written: handles `WM_CLOSE` by the close rule and reports every
        message unhandled, including a close the handler refused. */
    method WndProcAsWritten(hwnd: Hwnd, msg: nat) returns (handled: bool)
      requires Valid() && (msg == WM_CLOSE ==> hwnd in windows)
      modifies this
      ensures Valid()
      ensures !handled
      ensures msg != WM_CLOSE ==> windows == old(windows) && exitCode == old(exitCode)
      ensures msg == WM_CLOSE ==>
        var closed := old(CloseAnswer(windows[hwnd]));
        windows == (if closed then old(windows) - {hwnd} else old(windows)) &&
        exitCode == (if closed && windows == map[] && old(exitCode).None? then Some(0) else old(exitCode))
    {
      if msg == WM_CLOSE {
        var closed := CloseWindow(hwnd);
      }
      handled := false;
    }

    /** `wnd_proc` as intended: the same close rule, but a close the handler refused is
        reported handled, so that the default processing does not destroy a window that
        stays in the map. */
    method WndProc(hwnd: Hwnd, msg: nat) returns (handled: bool)
      requires Valid() && (msg == WM_CLOSE ==> hwnd in windows)
      modifies this
      ensures Valid()
      ensures handled <==> msg == WM_CLOSE && hwnd in windows
      ensures msg != WM_CLOSE ==> windows == old(windows) && exitCode == old(exitCode)
      ensures msg == WM_CLOSE ==>
        var closed := old(CloseAnswer(windows[hwnd]));
        windows == (if closed then old(windows) - {hwnd} else old(windows)) &&
        exitCode == (if closed && windows == map[] && old(exitCode).None? then Some(0) else old(exitCode))
    {
      handled := false;
      if msg == WM_CLOSE {
        var closed := CloseWindow(hwnd);
        handled := !closed;
      }
    }
  }

  /** A message `GetMessageW` returns: its result, and the window and message it carries. */
  datatype Msg = Msg(result: int, hwnd: Hwnd, msg: nat)

  /** The number of times `c` was called in `calls`. */
  function Count(calls: seq<Call>, c: Call): nat
  {
    multiset(calls)[c]
  }

  /** `Win32Platform`: the shared platform, the registered window classes and the native
      call log. */
  class Win32Platform {
    const shared: SharedPlatform
    const native: Native
    var registeredCls: set<string>

    /** `Win32Platform::new()`: no window, no exit code, no class registered. */
    constructor (native: Native)
      requires native.calls == []
      ensures Valid()
      ensures this.native == native && fresh(shared)
      ensures shared.windows == map[] && shared.exitCode == None && registeredCls == {}
    {
      this.native := native;
      shared := new SharedPlatform();
      registeredCls := {};
    }

    /** The shared platform is valid, and the class is registered natively exactly once when
        it is in the cache and never otherwise. */
    predicate Registered()
      reads this, shared, native
    {
      shared.Valid() &&
      registeredCls <= {CLASS_NAME} &&
      Count(native.calls, RegisterClassEx(CLASS_NAME)) == (if CLASS_NAME in registeredCls then 1 else 0)
    }

    /** Registered, and every window in the map is alive. */
    predicate Valid()
      reads this, shared, native
    {
      Registered() &&
      forall h | h in shared.windows :: DestroyWindow(h) !in native.calls
    }

    /** `register_wnd_cls`: answers the class name, registering it natively only the first
        time. */
    method RegisterWndCls() returns (name: string)
      requires Valid()
      modifies this, native
      ensures Valid()
      ensures name == CLASS_NAME && registeredCls == {CLASS_NAME}
      ensures native.calls == old(native.calls) +
        (if CLASS_NAME in old(registeredCls) then [] else [RegisterClassEx(CLASS_NAME)])
    {
      name := CLASS_NAME;
      if name !in registeredCls {
        native.calls := native.calls + [RegisterClassEx(name)];
        registeredCls := registeredCls + {name};
      }
    }

    /** `create_window`: registers the class if needed, creates an overlapped window with a
        client edge at the default position and size, and keys a new window by the handle the
        system returns (`newHwnd`, never null, since the source asserts it). The handle is
        the id. */
    method CreateWindow(newHwnd: Hwnd) returns (id: Hwnd)
      requires Valid() && newHwnd != 0 && newHwnd !in shared.windows
      requires DestroyWindow(newHwnd) !in native.calls
      modifies this, native, shared
      ensures Valid()
      ensures id == newHwnd && id in shared.windows && fresh(shared.windows[id])
      ensures shared.windows == old(shared.windows)[id := shared.windows[id]]
      ensures shared.windows[id].title == "" && !shared.windows[id].base.onClose.IsSet()
      ensures shared.exitCode == old(shared.exitCode)
      ensures native.calls == old(native.calls) +
        (if CLASS_NAME in old(registeredCls) then [] else [RegisterClassEx(CLASS_NAME)]) +
        [CreateWindowEx(WS_EX_CLIENTEDGE, CLASS_NAME, "", WS_OVERLAPPEDWINDOW,
                        CW_USEDEFAULT, CW_USEDEFAULT, CW_USEDEFAULT, CW_USEDEFAULT)]
    {
      var clsName := RegisterWndCls();
      native.calls := native.calls +
        [CreateWindowEx(WS_EX_CLIENTEDGE, clsName, "", WS_OVERLAPPEDWINDOW,
                        CW_USEDEFAULT, CW_USEDEFAULT, CW_USEDEFAULT, CW_USEDEFAULT)];
      var w := new Win32Window(newHwnd, native);
      shared.windows := shared.windows[newHwnd := w];
      id := newHwnd;
    }

    /** `window(id)`: the window of that handle; the source unwraps, so it must be there. */
    function WindowOf(id: Hwnd): (w: Win32Window)
      reads this, shared, native
      requires Valid() && id in shared.windows
      ensures w in shared.windows.Values && w.hwnd == id
    {
      shared.windows[id]
    }

    /** `exit(code)`. */
    method Exit(code: int)
      modifies shared
      ensures shared.exitCode == Some(code) && shared.windows == old(shared.windows)
    {
      shared.exitCode := Some(code);
    }

    /** `win32_wnd_proc` for a window of this platform, with the intended `wnd_proc`: a
        message `wnd_proc` does not report handled goes to the default processing. A window
        the handler keeps is not destroyed; one that leaves the map is. */
    method Win32WndProc(hwnd: Hwnd, msg: nat)
      requires Valid() && (msg == WM_CLOSE ==> hwnd in shared.windows)
      modifies shared, native
      ensures Valid()
      ensures msg != WM_CLOSE ==>
        native.calls == old(native.calls) && shared.windows == old(shared.windows) &&
        shared.exitCode == old(shared.exitCode)
      ensures msg == WM_CLOSE ==>
        var closed := old(CloseAnswer(shared.windows[hwnd]));
        shared.windows == (if closed then old(shared.windows) - {hwnd} else old(shared.windows)) &&
        native.calls == old(native.calls) + (if closed then [DestroyWindow(hwnd)] else []) &&
        shared.exitCode ==
          (if closed && shared.windows == map[] && old(shared.exitCode).None? then Some(0)
           else old(shared.exitCode))
    {
      var handled := shared.WndProc(hwnd, msg);
      if !handled {
        native.calls := native.calls + DefaultProcessing(hwnd, msg);
        assert msg != WM_CLOSE ==> native.calls == old(native.calls) + [];
      }
    }

    /** `win32_wnd_proc` with `wnd_proc` as written: a close the handler refused leaves the
        window in the map, yet the default processing destroys it. */
    method Win32WndProcAsWritten(hwnd: Hwnd, msg: nat)
      requires Registered() && (msg == WM_CLOSE ==> hwnd in shared.windows)
      modifies shared, native
      ensures Registered()
      ensures msg != WM_CLOSE ==>
        native.calls == old(native.calls) && shared.windows == old(shared.windows) &&
        shared.exitCode == old(shared.exitCode)
      ensures msg == WM_CLOSE ==>
        var closed := old(CloseAnswer(shared.windows[hwnd]));
        shared.windows == (if closed then old(shared.windows) - {hwnd} else old(shared.windows)) &&
        shared.exitCode ==
          (if closed && shared.windows == map[] && old(shared.exitCode).None? then Some(0)
           else old(shared.exitCode))
      ensures msg == WM_CLOSE ==> native.calls == old(native.calls) + [DestroyWindow(hwnd)]
      ensures msg == WM_CLOSE && !old(CloseAnswer(shared.windows[hwnd])) ==>
        hwnd in shared.windows && DestroyWindow(hwnd) in native.calls
      ensures msg == WM_CLOSE && !old(CloseAnswer(shared.windows[hwnd])) ==> !Valid()
    {
      var handled := shared.WndProcAsWritten(hwnd, msg);
      if !handled {
        native.calls := native.calls + DefaultProcessing(hwnd, msg);
        assert msg != WM_CLOSE ==> native.calls == old(native.calls) + [];
      }
    }

    /** `loop_events`: takes the messages `GetMessageW` returns in order. A result of 0
        (`WM_QUIT`) or -1 (an error) becomes the exit code; any other message is translated
        and dispatched, which the system delivers to the window procedure of an existing
        window. The loop stops after the first message that leaves an exit code set and
        returns it, or `None` when the messages run out first. `processed` is the number of
        messages taken. */
    method LoopEvents(messages: seq<Msg>) returns (code: Option<int>, processed: nat)
      requires Valid()
      modifies shared, native
      ensures Valid()
      ensures code == shared.exitCode && processed <= |messages|
      ensures processed < |messages| ==> code.Some?
      ensures |messages| > 0 ==> processed > 0
      ensures forall j | 0 <= j < processed - 1 :: messages[j].result != 0 && messages[j].result != -1
      ensures old(shared.exitCode).Some? && |messages| > 0 ==> processed == 1 && code.Some?
      ensures old(shared.exitCode).None? && code.Some? ==>
        (processed > 0 &&
         var last := messages[processed - 1].result;
         (code == Some(last) && (last == 0 || last == -1)) || (code == Some(0) && shared.windows == map[]))
    {
      var i := 0;
      while i < |messages|
        invariant 0 <= i <= |messages|
        invariant Valid()
        invariant i > 0 ==> shared.exitCode.None?
        invariant i == 0 ==> shared.exitCode == old(shared.exitCode)
        invariant old(shared.exitCode).Some? ==> i == 0
        invariant forall j | 0 <= j < i :: messages[j].result != 0 && messages[j].result != -1
      {
        var m := messages[i];
        if m.result == 0 || m.result == -1 {
          shared.exitCode := Some(m.result);
        } else {
          native.calls := native.calls + [TranslateDispatch];
          if m.hwnd in shared.windows {
            Win32WndProc(m.hwnd, m.msg);
          }
        }
        i := i + 1;
        if shared.exitCode.Some? {
          break;
        }
      }
      code := shared.exitCode;
      processed := i;
    }

    /** `loop_events` as written: the same loop, but each message is dispatched through the
        window procedure as written, so a close the handler refused still destroys the window
        natively. Only the registration bookkeeping is kept; windows in the map may be dead.
        Every window that leaves the map was destroyed natively. */
    method LoopEventsAsWritten(messages: seq<Msg>) returns (code: Option<int>, processed: nat)
      requires Registered()
      modifies shared, native
      ensures Registered()
      ensures code == shared.exitCode && processed <= |messages|
      ensures processed < |messages| ==> code.Some?
      ensures |messages| > 0 ==> processed > 0
      ensures forall j | 0 <= j < processed - 1 :: messages[j].result != 0 && messages[j].result != -1
      ensures old(shared.exitCode).Some? && |messages| > 0 ==> processed == 1 && code.Some?
      ensures old(shared.exitCode).None? && code.Some? ==>
        (processed > 0 &&
         var last := messages[processed - 1].result;
         (code == Some(last) && (last == 0 || last == -1)) || (code == Some(0) && shared.windows == map[]))
      ensures shared.windows.Keys <= old(shared.windows.Keys)
      ensures forall h | h in old(shared.windows) && h !in shared.windows :: DestroyWindow(h) in native.calls
      ensures forall h | h in old(shared.windows) && h in shared.windows ::
        shared.windows[h] == old(shared.windows[h])
    {
      var i := 0;
      while i < |messages|
        invariant 0 <= i <= |messages|
        invariant Registered()
        invariant i > 0 ==> shared.exitCode.None?
        invariant i == 0 ==> shared.exitCode == old(shared.exitCode)
        invariant old(shared.exitCode).Some? ==> i == 0
        invariant forall j | 0 <= j < i :: messages[j].result != 0 && messages[j].result != -1
        invariant shared.windows.Keys <= old(shared.windows.Keys)
        invariant forall h | h in old(shared.windows) && h !in shared.windows :: DestroyWindow(h) in native.calls
        invariant forall h | h in old(shared.windows) && h in shared.windows ::
          shared.windows[h] == old(shared.windows[h])
      {
        var m := messages[i];
        if m.result == 0 || m.result == -1 {
          shared.exitCode := Some(m.result);
        } else {
          native.calls := native.calls + [TranslateDispatch];
          if m.hwnd in shared.windows {
            Win32WndProcAsWritten(m.hwnd, m.msg);
          }
        }
        i := i + 1;
        if shared.exitCode.Some? {
          break;
        }
      }
      code := shared.exitCode;
      processed := i;
    }
  }
}
