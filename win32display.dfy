/** The per-window bookkeeping of the Win32 display backend (src/display/win32/mod.rs).

    The window procedure turns native notifications into events and queues them in a buffer
    owned by the window (`WindowShared`). A resize is compressed: while one is pending, a
    newer size overwrites its payload in place instead of queueing a second one. The `Window`
    owns the native handle and drives the native window through `show`, a small state
    machine that saves and restores the window's style and placement around fullscreen.

    Native calls are recorded in the window's `calls` log; what the source reads back from
    the system (the current styles and rectangles, the monitor's rectangle, the handle a
    window creation returns) comes in as parameters. */
module Win32Display {
  import opened Common
  import opened Win32
  import Geometry

  /** This backend's window state; `Normal` may carry a requested client size. */
  datatype State = Normal(size: Option<(int, int)>) | Maximized | Minimized | Fullscreen

  /** The events this backend queues. */
  datatype Event = Resize(size: Geometry.Size) | Close | NewState(state: State)

  /** Compression bits of `event_comp`. */
  const COMP_RESIZE: bv32 := 1
  const COMP_MOUSE_MOVE: bv32 := 2

  const WINDOW_CLASS: string := "ows-rs_window_class"

  /** The flags of every `SetWindowPos` call of `show`. */
  const SWP_FLAGS: bv32 := SWP_NOZORDER | SWP_NOACTIVATE | SWP_FRAMECHANGED

  /** The style bits and extended style bits that fullscreen clears. */
  const FULLSCREEN_CLEARED: bv32 := WS_CAPTION | WS_THICKFRAME
  const FULLSCREEN_CLEARED_EX: bv32 :=
    WS_EX_DLGMODALFRAME | WS_EX_WINDOWEDGE | WS_EX_CLIENTEDGE | WS_EX_STATICEDGE

  /** `rect_size`: the extent of a `RECT`. */
  function RectSize(r: Rect): Geometry.Size
  {
    Geometry.Size(r.right - r.left, r.bottom - r.top)
  }

  // ---------------------------------------------------------------------------------------
  // The event buffer and its compression

  /** Some event of `buf` is a resize. */
  predicate HasResize(buf: seq<Event>)
  {
    exists i | 0 <= i < |buf| :: buf[i].Resize?
  }

  /** No two events of `buf` are resizes. */
  predicate AtMostOneResize(buf: seq<Event>)
  {
    forall i, j | 0 <= i < |buf| && 0 <= j < |buf| && buf[i].Resize? && buf[j].Resize? :: i == j
  }

  /** `i` is the position of the first resize of `buf`. */
  predicate IsFirstResize(buf: seq<Event>, i: int)
  {
    0 <= i < |buf| && buf[i].Resize? && forall j | 0 <= j < i :: !buf[j].Resize?
  }

  /** The position of the first resize of `buf`. */
  function FirstResize(buf: seq<Event>): (i: nat)
    requires HasResize(buf)
    ensures IsFirstResize(buf, i)
  {
    if buf[0].Resize? then 0
    else
      assert HasResize(buf[1..]) by {
        var k :| 0 <= k < |buf| && buf[k].Resize?;
        assert buf[1..][k - 1].Resize?;
      }
      1 + FirstResize(buf[1..])
  }

  /** The first resize is the only position that is a resize with none before it. */
  lemma FirstResizeIs(buf: seq<Event>, i: int)
    requires IsFirstResize(buf, i)
    ensures HasResize(buf) && FirstResize(buf) == i
  {
    var k := FirstResize(buf);
    assert !(k < i) && !(i < k);
  }

  /** The buffer after queueing `e`: a resize overwrites the pending resize in place when
      there is one, and every other event is appended. */
  function Push(buf: seq<Event>, e: Event): seq<Event>
  {
    if e.Resize? && HasResize(buf) then buf[FirstResize(buf) := e] else buf + [e]
  }

  /** Queueing keeps at most one resize pending, and one is pending afterwards exactly when
      one was before or `e` is one. The buffer grows by one event, except when a resize is
      folded into the pending one, which leaves the length and every other event alone. */
  lemma PushKeepsOneResize(buf: seq<Event>, e: Event)
    requires AtMostOneResize(buf)
    ensures AtMostOneResize(Push(buf, e))
    ensures HasResize(Push(buf, e)) <==> HasResize(buf) || e.Resize?
    ensures e.Resize? && HasResize(buf) ==>
      |Push(buf, e)| == |buf| &&
      forall j | 0 <= j < |buf| && j != FirstResize(buf) :: Push(buf, e)[j] == buf[j]
    ensures !(e.Resize? && HasResize(buf)) ==> |Push(buf, e)| == |buf| + 1
  {
    var r := Push(buf, e);
    if e.Resize? && HasResize(buf) {
      var k := FirstResize(buf);
      assert r[k].Resize?;
    } else {
      assert r == buf + [e];
      assert r[|buf|] == e;
      assert forall i | 0 <= i < |buf| :: r[i] == buf[i];
    }
  }

  /** Queueing one more event after a run. */
  lemma FeedSnoc(buf: seq<Event>, p: seq<Event>, e: Event)
    ensures Feed(buf, p + [e]) == Push(Feed(buf, p), e)
  {
    assert (p + [e])[..|p + [e]| - 1] == p;
  }

  /** The other events of a run extended by one event. */
  lemma OthersSnoc(p: seq<Event>, e: Event)
    ensures Others(p + [e]) == Others(p) + (if e.Resize? then [] else [e])
  {
    assert (p + [e])[..|p + [e]| - 1] == p;
  }

  /** The last resize of a run extended by one event. */
  lemma LastResizeSnoc(p: seq<Event>, e: Event)
    requires HasResize(p) || e.Resize?
    ensures HasResize(p + [e])
    ensures LastResize(p + [e]) == if e.Resize? then e.size else LastResize(p)
  {
    assert (p + [e])[|p|] == e;
    assert forall i | 0 <= i < |p| :: (p + [e])[i] == p[i];
    assert (p + [e])[..|p + [e]| - 1] == p;
  }

  /** The first resize of a run stays first when the run is extended. */
  lemma FirstResizeSnoc(p: seq<Event>, e: Event)
    requires HasResize(p)
    ensures HasResize(p + [e]) && FirstResize(p + [e]) == FirstResize(p)
  {
    var k := FirstResize(p);
    assert forall i | 0 <= i < |p| :: (p + [e])[i] == p[i];
    FirstResizeIs(p + [e], k);
  }

  /** The buffer after queueing each of `evs` in turn. */
  function Feed(buf: seq<Event>, evs: seq<Event>): seq<Event>
    decreases |evs|
  {
    if evs == [] then buf else Push(Feed(buf, evs[..|evs| - 1]), evs[|evs| - 1])
  }

  /** The events of `evs` that are not resizes, in order. */
  function Others(evs: seq<Event>): seq<Event>
    decreases |evs|
  {
    if evs == [] then []
    else Others(evs[..|evs| - 1]) + (if evs[|evs| - 1].Resize? then [] else [evs[|evs| - 1]])
  }

  /** The size of the last resize of `evs`. */
  function LastResize(evs: seq<Event>): Geometry.Size
    requires HasResize(evs)
    decreases |evs|
  {
    var e := evs[|evs| - 1];
    if e.Resize? then e.size
    else
      assert HasResize(evs[..|evs| - 1]) by {
        var k :| 0 <= k < |evs| && evs[k].Resize?;
        assert evs[..|evs| - 1][k].Resize?;
      }
      LastResize(evs[..|evs| - 1])
  }

  /** Queueing `s` and then `t` is queueing `s + t`. */
  lemma {:induction false} FeedAppend(buf: seq<Event>, s: seq<Event>, t: seq<Event>)
    ensures Feed(Feed(buf, s), t) == Feed(buf, s + t)
    decreases |t|
  {
    if t == [] {
      assert s + t == s;
    } else {
      var u := t[..|t| - 1];
      FeedAppend(buf, s, u);
      assert (s + t)[..|s + t| - 1] == s + u;
      assert (s + t)[|s + t| - 1] == t[|t| - 1];
    }
  }

  /** Events that are not resizes are queued as they come. */
  lemma {:induction false} FeedWithoutResize(buf: seq<Event>, evs: seq<Event>)
    requires !HasResize(evs)
    ensures Feed(buf, evs) == buf + evs
    decreases |evs|
  {
    if evs != [] {
      var p := evs[..|evs| - 1];
      var e := evs[|evs| - 1];
      assert evs == p + [e];
      assert forall i | 0 <= i < |p| :: p[i] == evs[i];
      FeedWithoutResize(buf, p);
      FeedSnoc(buf, p, e);
    }
  }

  /** The compressed shape of the buffer after a run `evs` queued behind `buf`. */
  predicate Compressed(buf: seq<Event>, evs: seq<Event>, res: seq<Event>)
    requires HasResize(evs)
  {
    var k := FirstResize(evs);
    res == buf + evs[..k] + [Resize(LastResize(evs))] + Others(evs[k + 1..])
  }

  /** The first resize of a run, queued behind a buffer without one, is appended. */
  lemma CompressionStart(buf: seq<Event>, p: seq<Event>, e: Event)
    requires !HasResize(buf) && !HasResize(p) && e.Resize?
    ensures HasResize(p + [e]) && Compressed(buf, p + [e], Feed(buf, p + [e]))
  {
    var evs := p + [e];
    FeedWithoutResize(buf, p);
    FeedSnoc(buf, p, e);
    LastResizeSnoc(p, e);
    assert forall i | 0 <= i < |p| :: evs[i] == p[i];
    FirstResizeIs(evs, |p|);
    assert forall i | 0 <= i < |buf + p| :: (buf + p)[i] == if i < |buf| then buf[i] else p[i - |buf|];
    assert evs[..|p|] == p;
    assert evs[|p| + 1..] == [];
  }

  /** Overwriting the element between two parts: the step `CompressionExtendResize` takes
      when a later resize replaces the pending one in `resize_event`. */
  lemma UpdateBetween(a: seq<Event>, m: Event, b: seq<Event>, v: Event)
    ensures (a + [m] + b)[|a| := v] == a + [v] + b
  {
  }

  /** A later resize of a run overwrites the pending one's size. */
  lemma CompressionExtendResize(buf: seq<Event>, p: seq<Event>, e: Event)
    requires !HasResize(buf) && HasResize(p) && Compressed(buf, p, Feed(buf, p)) && e.Resize?
    ensures HasResize(p + [e]) && Compressed(buf, p + [e], Feed(buf, p + [e]))
  {
    var evs := p + [e];
    var k := FirstResize(p);
    var x := Feed(buf, p);
    var head := buf + p[..k];
    var tail := p[k + 1..];
    assert x == head + [Resize(LastResize(p))] + Others(tail);
    assert IsFirstResize(x, |head|) by {
      assert forall j | 0 <= j < |buf| :: x[j] == buf[j];
      assert forall j | |buf| <= j < |head| :: x[j] == p[j - |buf|];
    }
    FirstResizeIs(x, |head|);
    UpdateBetween(head, Resize(LastResize(p)), Others(tail), e);
    FeedSnoc(buf, p, e);
    assert Feed(buf, evs) == head + [e] + Others(tail);
    FirstResizeSnoc(p, e);
    LastResizeSnoc(p, e);
    assert evs[..k] == p[..k];
    assert evs[k + 1..] == tail + [e];
    OthersSnoc(tail, e);
    assert Others(evs[k + 1..]) == Others(tail);
  }

  /** A later event of a run that is not a resize is appended after the pending resize. */
  lemma CompressionExtendOther(buf: seq<Event>, p: seq<Event>, e: Event)
    requires !HasResize(buf) && HasResize(p) && Compressed(buf, p, Feed(buf, p)) && !e.Resize?
    ensures HasResize(p + [e]) && Compressed(buf, p + [e], Feed(buf, p + [e]))
  {
    var evs := p + [e];
    var k := FirstResize(p);
    var tail := p[k + 1..];
    FeedSnoc(buf, p, e);
    FirstResizeSnoc(p, e);
    LastResizeSnoc(p, e);
    assert evs[..k] == p[..k];
    assert evs[k + 1..] == tail + [e];
    OthersSnoc(tail, e);
  }

  /** Resize compression over any run of events queued while no resize is pending: the
      buffer ends with the events before the first resize, then one resize carrying the
      last size, at the first resize's position, then the other events that came after it,
      all in arrival order. */
  lemma {:induction false} ResizeCompression(buf: seq<Event>, evs: seq<Event>)
    requires !HasResize(buf) && HasResize(evs)
    ensures var k := FirstResize(evs);
      Feed(buf, evs) == buf + evs[..k] + [Resize(LastResize(evs))] + Others(evs[k + 1..])
    decreases |evs|
  {
    var p := evs[..|evs| - 1];
    var e := evs[|evs| - 1];
    assert evs == p + [e];
    if HasResize(p) {
      ResizeCompression(buf, p);
      if e.Resize? {
        CompressionExtendResize(buf, p, e);
      } else {
        CompressionExtendOther(buf, p, e);
      }
    } else {
      assert e.Resize? by {
        var i :| 0 <= i < |evs| && evs[i].Resize?;
        assert forall j | 0 <= j < |p| :: !evs[j].Resize?;
      }
      CompressionStart(buf, p, e);
    }
  }

  /** The events a state notification produces before queueing: one when the state changes. */
  function StateNotice(recorded: State, s: State): seq<Event>
  {
    if s != recorded then [NewState(s)] else []
  }

  /** The events a geometry notification produces before queueing: a resize when the extent
      changes. */
  function GeomNotice(recorded: Rect, r: Rect): seq<Event>
  {
    if RectSize(r) != RectSize(recorded) then [Resize(RectSize(r))] else []
  }

  /** The events, before queueing, that the window procedure produces for a message, given
      the recorded state and rectangle and the new client rectangle. */
  function Produced(recorded: State, recordedRect: Rect, msg: nat, wparam: nat, client: Rect): seq<Event>
  {
    if msg == WM_CLOSE then [Close]
    else if msg == WM_SIZE && wparam == SIZE_MINIMIZED then StateNotice(recorded, Minimized)
    else if msg == WM_SIZE && wparam == SIZE_MAXIMIZED then
      StateNotice(recorded, Maximized) + GeomNotice(recordedRect, client)
    else if msg == WM_SIZE && wparam == SIZE_RESTORED then
      StateNotice(recorded, Normal(None)) + GeomNotice(recordedRect, client)
    else []
  }

  /** Queueing nothing, or a single event. */
  lemma FeedShort(buf: seq<Event>, e: Event)
    ensures Feed(buf, []) == buf
    ensures Feed(buf, [e]) == Push(buf, e)
  {
    assert [e][..0] == [];
  }

  // ---------------------------------------------------------------------------------------
  // The shared window record

  /** `WindowShared`: the pending events, the compression bits, and the last rectangle and
      state the window procedure saw. */
  class WindowShared {
    var eventBuf: seq<Event>
    var eventComp: bv32
    var rect: Rect
    var state: State

    /** At most one resize is pending, and `COMP_RESIZE` is set exactly when one is (no
        other compression bit is used by this backend). */
    predicate Valid()
      reads this
    {
      AtMostOneResize(eventBuf) && eventComp == (if HasResize(eventBuf) then COMP_RESIZE else 0)
    }

    /** `WindowShared::new()`. */
    constructor ()
      ensures Valid()
      ensures eventBuf == [] && eventComp == 0 && rect == ZERO_RECT && state == Normal(None)
    {
      eventBuf := [];
      eventComp := 0;
      rect := ZERO_RECT;
      state := Normal(None);
    }

    /** `state_change(s)`: queues a state event and records `s` only when `s` differs from
        the recorded state; always handled. */
    method StateChange(s: State) returns (handled: bool)
      requires Valid()
      modifies this
      ensures Valid() && handled
      ensures state == s && rect == old(rect)
      ensures eventBuf == Feed(old(eventBuf), StateNotice(old(state), s))
    {
      FeedShort(eventBuf, NewState(s));
      if s != state {
        PushKeepsOneResize(eventBuf, NewState(s));
        eventBuf := eventBuf + [NewState(s)];
        state := s;
      }
      handled := true;
    }

    /** `geom_change`: records the new client rectangle, and asks for a resize event only
        when its width or height differs from the recorded one. The rectangle is the one the
        source computes from the window rectangle and the frame `AdjustWindowRectEx` gives. */
    method GeomChange(newRect: Rect) returns (handled: bool)
      requires Valid()
      modifies this
      ensures Valid()
      ensures rect == newRect && state == old(state)
      ensures handled <==> RectSize(newRect) != RectSize(old(rect))
      ensures eventBuf == Feed(old(eventBuf), GeomNotice(old(rect), newRect))
    {
      var newS := RectSize(newRect);
      var oldS := RectSize(rect);
      FeedShort(eventBuf, Resize(newS));
      rect := newRect;
      if newS.w != oldS.w || newS.h != oldS.h {
        handled := ResizeEvent(newS);
      } else {
        handled := false;
      }
    }

    /** `state_geom_change`: a state change, then a geometry change; always handled since the
        state change is. */
    method StateGeomChange(s: State, newRect: Rect) returns (handled: bool)
      requires Valid()
      modifies this
      ensures Valid() && handled
      ensures state == s && rect == newRect
      ensures eventBuf ==
        Feed(old(eventBuf), StateNotice(old(state), s) + GeomNotice(old(rect), newRect))
    {
      var st := StateChange(s);
      ghost var mid := eventBuf;
      var geom := GeomChange(newRect);
      FeedAppend(old(eventBuf), StateNotice(old(state), s), GeomNotice(old(rect), newRect));
      handled := st || geom;
    }

    /** `event(ev)`: appends `ev`; always handled. The window procedure only queues `Close`
        this way, never a resize, which goes through `resize_event`. */
    method Event(ev: Event) returns (handled: bool)
      requires Valid() && !ev.Resize?
      modifies this
      ensures Valid() && handled
      ensures eventBuf == old(eventBuf) + [ev]
      ensures state == old(state) && rect == old(rect)
    {
      PushKeepsOneResize(eventBuf, ev);
      eventBuf := eventBuf + [ev];
      handled := true;
    }

    /** `resize_event(size)`: with no resize pending, appends one and sets `COMP_RESIZE`;
        otherwise overwrites the pending resize's size where it stands. */
    method ResizeEvent(newSize: Geometry.Size) returns (handled: bool)
      requires Valid()
      modifies this
      ensures Valid() && handled
      ensures eventBuf == Push(old(eventBuf), Resize(newSize))
      ensures state == old(state) && rect == old(rect)
    {
      PushKeepsOneResize(eventBuf, Resize(newSize));
      if eventComp & COMP_RESIZE == 0 {
        eventBuf := eventBuf + [Resize(newSize)];
        eventComp := eventComp | COMP_RESIZE;
        handled := true;
      } else {
        var i := 0;
        while i < |eventBuf| && !eventBuf[i].Resize?
          invariant 0 <= i <= |eventBuf|
          invariant forall j | 0 <= j < i :: !eventBuf[j].Resize?
        {
          i := i + 1;
        }
        if i < |eventBuf| {
          FirstResizeIs(eventBuf, i);
          eventBuf := eventBuf[i := Resize(newSize)];
          handled := true;
        } else {
          handled := false;
        }
      }
    }
  }

  /** `win32_wnd_proc`: with no shared record the message goes to the default procedure
      (reported here as not handled). `WM_CLOSE` queues `Close`; `WM_SIZE` minimized records
      the state; maximized and restored record the state and the new client rectangle
      `client`. Every other message is left to the default procedure. */
  method WndProc(shared: WindowShared?, msg: nat, wparam: nat, client: Rect) returns (handled: bool)
    requires shared != null ==> shared.Valid()
    modifies shared
    ensures shared == null ==> !handled
    ensures shared != null ==> shared.Valid()
    ensures shared != null ==>
      (handled <==>
        (msg == WM_CLOSE ||
         (msg == WM_SIZE &&
          (wparam == SIZE_MINIMIZED || wparam == SIZE_MAXIMIZED || wparam == SIZE_RESTORED))))
    ensures shared != null ==>
      shared.eventBuf == Feed(old(shared.eventBuf),
        Produced(old(shared.state), old(shared.rect), msg, wparam, client))
    ensures shared != null && msg == WM_SIZE && wparam == SIZE_MINIMIZED ==>
      shared.state == Minimized && shared.rect == old(shared.rect)
    ensures shared != null && msg == WM_SIZE && wparam == SIZE_MAXIMIZED ==>
      shared.state == Maximized && shared.rect == client
    ensures shared != null && msg == WM_SIZE && wparam == SIZE_RESTORED ==>
      shared.state == Normal(None) && shared.rect == client
    ensures shared != null && !handled ==> unchanged(shared)
  {
    if shared == null {
      return false;
    }
    if msg == WM_CLOSE {
      FeedShort(shared.eventBuf, Close);
      handled := shared.Event(Close);
    } else if msg == WM_SIZE {
      if wparam == SIZE_MINIMIZED {
        handled := shared.StateChange(Minimized);
      } else if wparam == SIZE_MAXIMIZED {
        handled := shared.StateGeomChange(Maximized, client);
      } else if wparam == SIZE_RESTORED {
        handled := shared.StateGeomChange(Normal(None), client);
      } else {
        handled := false;
        FeedShort(shared.eventBuf, Close);
      }
    } else {
      handled := false;
      FeedShort(shared.eventBuf, Close);
    }
  }

  // ---------------------------------------------------------------------------------------
  // The window

  /** What `show` saves on entering fullscreen, to restore on leaving it. */
  datatype SavedInfo = SavedInfo(rect: Rect, maximized: bool, style: bv32, exStyle: bv32)

  /** What `show` reads back from the system on entering fullscreen: the window's style and
      extended style, its window rectangle, whether it is zoomed, and the rectangle of the
      monitor nearest to it. */
  datatype NativeView = NativeView(style: bv32, exStyle: bv32, windowRect: Rect, zoomed: bool,
                                   monitor: Rect)

  /** The style `create` gives a new window: the overlapped-window bits, plus the maximize or
      minimize bit exactly when that state is asked for. */
  function CreateStyle(state: State): (s: bv32)
    ensures s & WS_OVERLAPPEDWINDOW == WS_OVERLAPPEDWINDOW
    ensures s & WS_MAXIMIZE != 0 <==> state == Maximized
    ensures s & WS_MINIMIZE != 0 <==> state == Minimized
    ensures s & !(WS_OVERLAPPEDWINDOW | WS_MAXIMIZE | WS_MINIMIZE) == 0
  {
    match state
    case Maximized => WS_OVERLAPPEDWINDOW | WS_MAXIMIZE
    case Minimized => WS_OVERLAPPEDWINDOW | WS_MINIMIZE
    case _ => WS_OVERLAPPEDWINDOW
  }

  /** The creation call of `create`: the requested size of a `Normal(Some(..))` state, the
      system default otherwise. */
  function CreateCall(state: State, title: string): Call
  {
    var (w, h) := if state.Normal? && state.size.Some? then state.size.value
                  else (CW_USEDEFAULT, CW_USEDEFAULT);
    CreateWindowEx(WS_EX_OVERLAPPEDWINDOW, WINDOW_CLASS, title, CreateStyle(state),
                   CW_USEDEFAULT, CW_USEDEFAULT, w, h)
  }

  /** The state `create` records: fullscreen is reached later by `show`, so a window created
      for it starts out normal. */
  function CreatedState(state: State): (r: State)
    ensures r != Fullscreen
    ensures state != Fullscreen ==> r == state
  {
    if state == Fullscreen then Normal(None) else state
  }

  /** A saved rectangle as the position and extent `SetWindowPos` takes. */
  function PlaceAt(hwnd: Hwnd, r: Rect): Call
  {
    SetWindowPos(hwnd, r.left, r.top, r.right - r.left, r.bottom - r.top, SWP_FLAGS)
  }

  /** The native calls that enter fullscreen from what the system reports: a zoomed window is
      restored first, then the frame styles are stripped and the window covers the monitor. */
  function EnterCalls(hwnd: Hwnd, view: NativeView): (cs: seq<Call>)
    ensures SetWindowLong(hwnd, GWL_STYLE, view.style & !FULLSCREEN_CLEARED) in cs
    ensures SetWindowLong(hwnd, GWL_EXSTYLE, view.exStyle & !FULLSCREEN_CLEARED_EX) in cs
    ensures SendMessage(hwnd, WM_SYSCOMMAND, SC_RESTORE) in cs <==> view.zoomed
    ensures |cs| == (if view.zoomed then 4 else 3)
    ensures view.zoomed ==> cs[0] == SendMessage(hwnd, WM_SYSCOMMAND, SC_RESTORE)
    ensures cs[|cs| - 3] == SetWindowLong(hwnd, GWL_STYLE, view.style & !FULLSCREEN_CLEARED)
    ensures cs[|cs| - 2] == SetWindowLong(hwnd, GWL_EXSTYLE, view.exStyle & !FULLSCREEN_CLEARED_EX)
    ensures cs[|cs| - 1] == PlaceAt(hwnd, view.monitor)
    ensures forall c | c in cs :: !c.ShowWindow? && c != SendMessage(hwnd, WM_SYSCOMMAND, SC_MAXIMIZE)
  {
    (if view.zoomed then [SendMessage(hwnd, WM_SYSCOMMAND, SC_RESTORE)] else []) +
    [SetWindowLong(hwnd, GWL_STYLE, view.style & !FULLSCREEN_CLEARED),
     SetWindowLong(hwnd, GWL_EXSTYLE, view.exStyle & !FULLSCREEN_CLEARED_EX),
     PlaceAt(hwnd, view.monitor)]
  }

  /** The native calls that leave fullscreen: the saved styles and window rectangle come
      back, and a window that was maximized is maximized again. */
  function LeaveCalls(hwnd: Hwnd, saved: SavedInfo): (cs: seq<Call>)
    ensures SetWindowLong(hwnd, GWL_STYLE, saved.style) in cs
    ensures SetWindowLong(hwnd, GWL_EXSTYLE, saved.exStyle) in cs
    ensures PlaceAt(hwnd, saved.rect) in cs
    ensures SendMessage(hwnd, WM_SYSCOMMAND, SC_MAXIMIZE) in cs <==> saved.maximized
    ensures forall c | c in cs :: !c.ShowWindow?
    ensures |cs| == (if saved.maximized then 4 else 3)
    ensures cs[0] == SetWindowLong(hwnd, GWL_STYLE, saved.style)
    ensures cs[1] == SetWindowLong(hwnd, GWL_EXSTYLE, saved.exStyle)
    ensures cs[2] == PlaceAt(hwnd, saved.rect)
    ensures saved.maximized ==> cs[3] == SendMessage(hwnd, WM_SYSCOMMAND, SC_MAXIMIZE)
  {
    [SetWindowLong(hwnd, GWL_STYLE, saved.style),
     SetWindowLong(hwnd, GWL_EXSTYLE, saved.exStyle),
     PlaceAt(hwnd, saved.rect)] +
    (if saved.maximized then [SendMessage(hwnd, WM_SYSCOMMAND, SC_MAXIMIZE)] else [])
  }

  /** The native calls that apply a state once fullscreen has been entered or left: a show
      command, and for a normal state with a size, a resize in place at the saved rectangle's
      corner. Fullscreen needs none. */
  function ApplyCalls(hwnd: Hwnd, state: State, saved: Rect): (cs: seq<Call>)
    ensures forall c | c in cs :: c.ShowWindow? || c.SetWindowPos?
    ensures state.Normal? ==> |cs| > 0 && cs[0] == ShowWindow(hwnd, SW_SHOWNORMAL)
    ensures state.Normal? && state.size.Some? ==>
      |cs| == 2 &&
      cs[1] == SetWindowPos(hwnd, saved.left, saved.top, state.size.value.0, state.size.value.1, SWP_FLAGS)
    ensures state == Maximized ==> cs == [ShowWindow(hwnd, SW_MAXIMIZE)]
    ensures state == Minimized ==> cs == [ShowWindow(hwnd, SW_MINIMIZE)]
    ensures state == Fullscreen ==> cs == []
  {
    match state
    case Normal(None) => [ShowWindow(hwnd, SW_SHOWNORMAL)]
    case Normal(Some((w, h))) =>
      [ShowWindow(hwnd, SW_SHOWNORMAL), SetWindowPos(hwnd, saved.left, saved.top, w, h, SWP_FLAGS)]
    case Maximized => [ShowWindow(hwnd, SW_MAXIMIZE)]
    case Minimized => [ShowWindow(hwnd, SW_MINIMIZE)]
    case Fullscreen => []
  }

  /** The native calls of `show` going from the recorded state `prior` to another state. */
  function TransitionCalls(hwnd: Hwnd, prior: State, state: State, saved: SavedInfo,
                           view: NativeView): seq<Call>
  {
    (if state == Fullscreen then EnterCalls(hwnd, view)
     else if prior == Fullscreen then LeaveCalls(hwnd, saved)
     else []) +
    ApplyCalls(hwnd, state, saved.rect)
  }

  /** `Window`: the native handle (0 while the window does not exist), the title, what was
      saved around fullscreen, the shared record while the window exists, and the log of the
      native calls made so far. */
  class Window {
    var hwnd: Hwnd
    var title: string
    var savedInfo: SavedInfo
    var shared: WindowShared?
    var calls: seq<Call>

    /** The handle and the shared record exist together, and the record keeps its own
        invariant. */
    predicate Valid()
      reads this, shared
    {
      (hwnd == 0 <==> shared == null) && (shared != null ==> shared.Valid())
    }

    /** `Window::new()`: no native window yet. */
    constructor ()
      ensures Valid()
      ensures hwnd == 0 && shared == null && title == [] && calls == []
      ensures savedInfo == SavedInfo(ZERO_RECT, false, 0, 0)
    {
      hwnd := 0;
      title := [];
      savedInfo := SavedInfo(ZERO_RECT, false, 0, 0);
      shared := null;
      calls := [];
    }

    /** `create(state)`: creates the native window (whose handle the system returns as
        `newHwnd`) and a fresh shared record, and records the state it was created for,
        normal in place of fullscreen. */
    method Create(state: State, newHwnd: Hwnd)
      requires newHwnd != 0
      modifies this
      ensures Valid()
      ensures hwnd == newHwnd && fresh(shared)
      ensures shared.eventBuf == [] && shared.eventComp == 0 && shared.rect == ZERO_RECT
      ensures shared.state == CreatedState(state)
      ensures calls == old(calls) + [CreateCall(state, title)]
      ensures title == old(title) && savedInfo == old(savedInfo)
    {
      calls := calls + [CreateCall(state, title)];
      var sh := new WindowShared();
      shared := sh;
      hwnd := newHwnd;
      sh.state := if state == Fullscreen then Normal(None) else state;
    }

    /** `title()`: the title last stored. */
    function Title(): (t: string)
      reads this
      ensures t == title
    {
      title
    }

    /** `set_title(t)`: stores the title, and passes it to the native window if there is
        one. */
    method SetTitle(t: string)
      modifies this
      ensures title == t && Title() == t
      ensures hwnd == old(hwnd) && shared == old(shared) && savedInfo == old(savedInfo)
      ensures old(hwnd) != 0 ==> calls == old(calls) + [SetWindowText(hwnd, t)]
      ensures old(hwnd) == 0 ==> calls == old(calls)
    {
      title := t;
      if hwnd != 0 {
        calls := calls + [SetWindowText(hwnd, t)];
      }
    }

    /** `show(state)`: creates the window on first use (with handle `newHwnd`), then does
        nothing more when `state` is the recorded one; otherwise it enters or leaves
        fullscreen as needed, applies the new state, and records it. `view` is what the
        system reports when fullscreen is entered. */
    method Show(state: State, newHwnd: Hwnd, view: NativeView)
      requires Valid() && newHwnd != 0
      modifies this, shared
      ensures Valid() && hwnd != 0 && shared.state == state
      ensures title == old(title) && old(calls) <= calls
      ensures old(hwnd) == 0 ==> hwnd == newHwnd && fresh(shared) && shared.eventBuf == []
      ensures old(hwnd) != 0 ==>
        hwnd == old(hwnd) && shared == old(shared) &&
        shared.eventBuf == old(shared.eventBuf) && shared.eventComp == old(shared.eventComp) &&
        shared.rect == old(shared.rect)
      ensures var prior := if old(hwnd) == 0 then CreatedState(state) else old(shared.state);
        calls[|old(calls)|..] ==
          (if old(hwnd) == 0 then [CreateCall(state, title), ShowWindow(hwnd, SW_SHOWNORMAL)] else []) +
          (if prior != state then TransitionCalls(hwnd, prior, state, old(savedInfo), view) else [])
      ensures var prior := if old(hwnd) == 0 then CreatedState(state) else old(shared.state);
        savedInfo == if state == Fullscreen && prior != Fullscreen
                     then SavedInfo(view.windowRect, view.zoomed, view.style, view.exStyle)
                     else old(savedInfo)
    {
      if hwnd == 0 {
        Create(state, newHwnd);
        calls := calls + [ShowWindow(hwnd, SW_SHOWNORMAL)];
      }
      ChangeState(state, view);
    }

    /** The part of `show` after creation: nothing when `state` is the recorded one,
        otherwise the transition's native calls, and `state` recorded. */
    method ChangeState(state: State, view: NativeView)
      requires Valid() && hwnd != 0
      modifies this, shared
      ensures Valid() && hwnd == old(hwnd) && shared == old(shared)
      ensures shared.state == state && shared.eventBuf == old(shared.eventBuf)
      ensures shared.eventComp == old(shared.eventComp) && shared.rect == old(shared.rect)
      ensures title == old(title)
      ensures state == old(shared.state) ==> calls == old(calls) && savedInfo == old(savedInfo)
      ensures state != old(shared.state) ==>
        calls == old(calls) + TransitionCalls(hwnd, old(shared.state), state, old(savedInfo), view)
      ensures savedInfo == if state == Fullscreen && old(shared.state) != Fullscreen
                           then SavedInfo(view.windowRect, view.zoomed, view.style, view.exStyle)
                           else old(savedInfo)
    {
      var sh := shared;
      if state == sh.state {
        return;
      }
      var out: seq<Call> := [];
      if state == Fullscreen {
        savedInfo := SavedInfo(view.windowRect, view.zoomed, view.style, view.exStyle);
        out := EnterCalls(hwnd, view);
      } else if sh.state == Fullscreen {
        out := LeaveCalls(hwnd, savedInfo);
      }
      out := out + ApplyCalls(hwnd, state, savedInfo.rect);
      calls := calls + out;
      sh.state := state;
    }

    /** `retrieve_events()`: hands over the pending events in order and leaves the buffer
        empty and the compression bits clear; nothing without a shared record. */
    method RetrieveEvents() returns (evs: seq<Event>)
      requires Valid()
      modifies shared
      ensures Valid()
      ensures shared == null ==> evs == []
      ensures shared != null ==>
        evs == old(shared.eventBuf) && shared.eventBuf == [] && shared.eventComp == 0 &&
        shared.rect == old(shared.rect) && shared.state == old(shared.state)
    {
      evs := [];
      if shared != null {
        evs := shared.eventBuf;
        shared.eventBuf := [];
        shared.eventComp := 0;
      }
    }

    /** `close()`: destroys the native window if there is one and forgets the handle and the
        shared record; a second call does nothing. */
    method Close()
      requires Valid()
      modifies this
      ensures Valid()
      ensures hwnd == 0 && shared == null
      ensures old(hwnd) != 0 ==> calls == old(calls) + [DestroyWindow(old(hwnd))]
      ensures old(hwnd) == 0 ==> calls == old(calls)
      ensures title == old(title) && savedInfo == old(savedInfo)
    {
      if hwnd != 0 {
        calls := calls + [DestroyWindow(hwnd)];
        hwnd := 0;
        shared := null;
      }
    }
  }

  /** Going fullscreen and back: the calls that leave fullscreen, with what entering it
      saved, first put back the style, extended style and window rectangle the system
      reported before, in that order, with no later style write, and then maximize again a
      window that was zoomed; the calls that enter it restore a zoomed window first. */
  lemma FullscreenRoundTrip(hwnd: Hwnd, prior: State, back: State, saved: SavedInfo, view: NativeView)
    requires prior != Fullscreen && back != Fullscreen
    ensures var entered := SavedInfo(view.windowRect, view.zoomed, view.style, view.exStyle);
      var enter := TransitionCalls(hwnd, prior, Fullscreen, saved, view);
      var leave := TransitionCalls(hwnd, Fullscreen, back, entered, view);
      |leave| >= 3 &&
      leave[0] == SetWindowLong(hwnd, GWL_STYLE, view.style) &&
      leave[1] == SetWindowLong(hwnd, GWL_EXSTYLE, view.exStyle) &&
      leave[2] == PlaceAt(hwnd, view.windowRect) &&
      (forall k | 2 <= k < |leave| :: !leave[k].SetWindowLong?) &&
      (view.zoomed ==> |leave| >= 4 && leave[3] == SendMessage(hwnd, WM_SYSCOMMAND, SC_MAXIMIZE)) &&
      (SendMessage(hwnd, WM_SYSCOMMAND, SC_MAXIMIZE) in leave <==> view.zoomed) &&
      (view.zoomed ==> enter[0] == SendMessage(hwnd, WM_SYSCOMMAND, SC_RESTORE)) &&
      (SendMessage(hwnd, WM_SYSCOMMAND, SC_RESTORE) in enter <==> view.zoomed)
  {
  }
}
