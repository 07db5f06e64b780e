# ows-rs windowing core in Dafny

This project models the core of ows-rs, a small Rust windowing library, and proves properties of that model. The core is the bookkeeping each native backend keeps per window and per platform:

- **Win32 display backend** (`win32display.dfy`): the per-window event queue that compresses resizes, the state and geometry change notifications, the window procedure, and the `show` state machine. `show` creates the window, then enters and leaves fullscreen, saving and restoring the style and rectangle.
- **XCB platform** (`xcb.dfy`):
  - the interned atoms;
  - decoding `_NET_WM_STATE` from the Extended Window Manager Hints;
  - classifying `WM_STATE` per section 4.1.3.1 of the ICCCM;
  - the `update_state` transition, which uses `WM_CHANGE_STATE` (section 4.1.4 of the ICCCM) and `_NET_WM_STATE` client messages;
  - `create` and `close` with the window registry;
  - configure, map and unmap notifications;
  - `WM_DELETE_WINDOW` handling (section 4.2.8.1 of the ICCCM) and the event loop with its exit-code rule.
- **Win32 platform** (`win32platform.dfy`): the `RECT`/`IRect` conversions, the window-class registration cache, the window map keyed by handle, the close logic of the window procedure, and the message loop.
- **Handler containers** (`handler.dfy`, `macros.dfy`): the multi-handler lists and single-slot handlers that `define_handler!`/`define_event!` generate, and the helper macros that act on them.
- **Vocabulary** (`window.dfy`, `geometry.dfy`, `key.dfy`, `keysym.dfy`, `keymap.dfy`, `mouse.dfy`):
  - window `State` and `OnCloseSig`;
  - rectangles;
  - modifier and button bit flags;
  - the `Code` and `Sym` key encodings;
  - the Win32 scancode and virtual-key tables.
- **Render thread** (`render.dfy`): the swapchain preference searches, the image-count rule, and the renderer's window list with its `must_rebuild` flag, driven by the render loop. The GPU is abstracted away.

Native calls (Win32 and XCB requests) are modelled as an appended log of call values, so "no native call is issued" can be stated. What the system answers is a parameter of the operation that asks:

- window styles, rectangles, zoom state and monitor;
- property replies and translated coordinates;
- the next message or event.

A panic the source reserves for a caller's mistake becomes a `requires`. Examples are an unknown render token, a table index of 256 or more, and `OnCloseSig::fire` with no handler.

## Model

| member | source | states |
|---|---|---|
| Geometry.RectRoundTrip | src/geometry.rs:67-84 | rebuilding a rect from its `point()` and `size()` with `new_ps` gives the same rect |
| Geometry.RectProjections | src/geometry.rs:67-84 | `point()` and `size()` of a rect built by `new_ps(p, s)` are `p` and `s` |
| Geometry.RectConstructorsAgree | src/geometry.rs:50-84 | `new_s`, `new_p` and `new_ps` build the same rect as `new` from the same numbers, and `point`/`size` of `new(x,y,w,h)` are `(x,y)` and `(w,h)` |
| Geometry.MarginsFields | src/geometry.rs:96-100 | `Margins::new(l,r,t,b)` stores its arguments in `l`, `r`, `t`, `b` respectively |
| Geometry.NewPoint | src/geometry.rs:23-25 | `Point::new(x, y)` holds `x` and `y` |
| Geometry.NewSize | src/geometry.rs:36-38 | `Size::new(w, h)` holds `w` and `h` |
| Geometry.NewRect | src/geometry.rs:50-54 | `Rect::new(x, y, w, h)` has corner `(x, y)` and extent `(w, h)` |
| Geometry.NewRectS | src/geometry.rs:55-60 | `Rect::new_s(x, y, s)` has corner `(x, y)` and extent `s` |
| Geometry.NewRectP | src/geometry.rs:61-66 | `Rect::new_p(p, w, h)` has corner `p` and extent `(w, h)` |
| Geometry.NewRectPs | src/geometry.rs:67-73 | `Rect::new_ps(p, s)` has corner `p` and extent `s` |
| Geometry.RectPoint | src/geometry.rs:74-78 | `point()` is the rect's top-left corner |
| Geometry.RectSize | src/geometry.rs:79-83 | `size()` is the rect's width and height |
| Geometry.NewMargins | src/geometry.rs:96-100 | `Margins::new(l, r, t, b)` holds its arguments in that order |
| Key.PrimitiveModsAreDistinctBits | src/key.rs:3-12 | the seven primitive `Mods` flags are single bits, pairwise disjoint |
| Key.CombinedModsAreUnions | src/key.rs:5-11 | `CTRL`, `SHIFT` and `ALT` hold exactly their left and right flags; the groups are disjoint from each other and from `SUPER` |
| Key.CodeValue | src/key.rs:16-244 | every `Code` discriminant is below 256, so it can index a 256-entry table |
| KeySym.ModifierSymsAreUnions | src/key.rs:410-425 | each combined modifier sym is the union of its left and right syms, and every modifier sym carries `SYM_MODS_MASK` |
| KeySym.ControlBlock | src/key.rs:271-323 | control syms run consecutively from `SYM_CONTROL_MASK\|1` (`Escape`) to `F24`, each carrying only the control block mask |
| KeySym.KeypadBlock | src/key.rs:325-353 | keypad syms run consecutively from `SYM_KP_MASK\|1` to `Kp_9`, each carrying only the keypad block mask |
| KeySym.Latin1SymsAreCodePoints | src/key.rs:434-528 | every Latin-1 sym from `Space` to `AsciiTilde` equals the ISO/IEC 8859-1 code point of its character |
| Keymap.FunctionKeyScancodes | src/display/win32/keymap.rs:77-87 | scancodes 0x3B..0x44 map to F1..F10 in order |
| Keymap.F11F12Scancodes | src/display/win32/keymap.rs:107-108 | scancodes 0x57 and 0x58 map to F11 and F12 |
| Keymap.HighScancodesUnknown | src/display/win32/keymap.rs:109-285 | every scancode from 0x59 to 0xFF maps to `Unknown` |
| Keymap.DigitKeys | src/display/win32/keymap.rs:339-348 | virtual keys 0x30..0x39 map to the sym whose value is the key itself (the digit's code point) |
| Keymap.LetterKeys | src/display/win32/keymap.rs:356-381 | virtual keys 0x41..0x5A map to the sym whose value is the key itself (the letter's code point) |
| Keymap.KeypadDigitKeys | src/display/win32/keymap.rs:387-396 | virtual keys 0x60..0x69 map to `Kp_0`..`Kp_9` in order |
| Keymap.FunctionKeys | src/display/win32/keymap.rs:403-426 | virtual keys 0x70..0x87 map to `F1`..`F24` in order |
| Keymap.Code | src/display/win32/keymap.rs:3-6 | `code(scancode)` is the `CODES` entry for a scancode below 256, and every scancode from 0x59 up is `Unknown` |
| Keymap.Sym | src/display/win32/keymap.rs:8-11 | `sym(vkey)` is the `SYMS` entry for a virtual key below 256, and a digit or letter key translates to the sym whose value is the key |
| Mouse.ButtonBits | src/mouse.rs:3-8 | `LEFT`, `MIDDLE`, `RIGHT` are distinct single bits and `MASK` is exactly their union |
| Mouse.DefaultIsEmpty | src/mouse.rs:11-15 | `Buts::default()` holds no button |
| Window.OnCloseSig.constructor | src/window.rs:61-63 | a new close signal has no handler |
| Window.OnCloseSig.Set | src/window.rs:67-69 | `set(s)` stores `s`; `is_set()` afterwards equals `s.is_some()` |
| Window.OnCloseSig.Fire | src/window.rs:70-72 | `fire()` needs a handler (the source unwraps) and returns its answer |
| Window.OnCloseSig.FireOr | src/window.rs:73-75 | `fire_or(def)` returns `def` when unset and the handler's answer otherwise |
| Window.WindowBase.constructor | src/window.rs:82-87 | a new base has a fresh close signal with no handler |
| Window.Window.ShowNormal | src/window.rs:21-23 | requests state `Normal` through `set_state` |
| Window.Window.ShowMinimized | src/window.rs:25-27 | requests state `Minimized` through `set_state` |
| Window.Window.ShowMaximized | src/window.rs:29-31 | requests state `Maximized` through `set_state` |
| Window.Window.ShowFullscreen | src/window.rs:33-35 | requests state `Fullscreen` through `set_state` |
| Window.Window.Hide | src/window.rs:37-39 | requests state `Hidden` through `set_state` |
| Window.Window.OnCloseDo | src/window.rs:45-47 | `on_close_do(sig)` stores `sig` as the base's close handler |
| Handler.FireAllAppend | src/handler.rs:35-40 | firing a concatenated list runs the first part, then the second, on the state the first left |
| Handler.WithoutKeepsOthers | src/handler.rs:30-34 | after `retain`, a handler is kept if and only if its id differs from the removed id |
| Handler.WithoutShrinks | src/handler.rs:30-34 | removal never grows the list, and shrinks it if and only if some handler has the id |
| Handler.WithoutSnoc | src/handler.rs:30-34 | removal over a list extended by one handler is removal over the prefix, plus that handler if its id differs |
| Handler.Handlers.constructor | src/handler.rs:10-12 | `new()` holds no handler |
| Handler.Handlers.NewWith | src/handler.rs:13-15 | `new_with(h)` holds exactly `h` |
| Handler.Handlers.NewWithN | src/handler.rs:16-18 | `new_with_n(hs)` holds exactly `hs` |
| Handler.Handlers.Add | src/handler.rs:25-29 | `add` appends the handler, so `len` grows by one and the rest is unchanged; it returns the handler's id |
| Handler.Handlers.Remove | src/handler.rs:30-34 | `remove(id)` keeps exactly the handlers with another id, in order; it returns true iff some handler had the id, iff the length decreased |
| Handler.Handlers.Fire | src/handler.rs:35-40 | `fire` runs every handler once, in insertion order, with the same arguments |
| Handler.Slot.constructor | src/handler.rs:54-56 | a new slot is unset |
| Handler.Slot.NewWith | src/handler.rs:57-59 | `new_with(h)` is set to `h` |
| Handler.Slot.Set | src/handler.rs:63-65 | `set(h)` replaces the slot; it is set afterwards iff `h` is `Some` |
| Handler.Slot.Fire | src/handler.rs:66-68 | `fire` is `None` when unset and `Some` of the handler's result when set |
| Handler.Slot.FireOr | src/handler.rs:69-71 | `fire_or(def, ..)` is `def` when unset and the handler's result when set |
| Handler.TracerScenario | src/handler.rs:288-326 | firing the two tracer handlers with 6 gives 6; after removing one, firing with 7 gives 27; removing the other empties the list |
| Handler.SlotScenario | src/handler.rs:331-345 | an unset slot fires `None` and `fire_or` gives the default; once set, both give the handler's result |
| Macros.HandlerDo | src/macros.rs:210-217 | `handler_do!` leaves the slot set to the closure |
| Macros.HandlerDoNothing | src/macros.rs:219-226 | `handler_do_nothing!` leaves the slot unset |
| Macros.EventAdd | src/macros.rs:228-236 | `event_add!` appends the closure and yields the id `add` returns |
| Macros.EventRem | src/macros.rs:238-246 | `event_rem!` removes the handlers with the id and yields whether any was removed |
| Macros.EventFire | src/macros.rs:249-256 | `event_fire!` runs every handler in order |
| Macros.HandlerFire | src/macros.rs:258-266 | `handler_fire!` is `None` when unset and the handler's result when set |
| Macros.HandlerFireOr | src/macros.rs:268-276 | `handler_fire_or!` is the default when unset and the handler's result when set |
| Xcb.VariantsExactlyOnce | src/macros.rs:36-54 | `Atom::variants()` lists every declared atom exactly once, in declaration order, and `num_variants()` is 21, its length |
| Xcb.StateFlags | src/platform/xcbplatform/mod.rs:52-66 | `NET_WM_STATE_MAXIMIZED` is `MAXIMIZED_VERT \| MAXIMIZED_HORZ`, and distinct state atoms have disjoint flags |
| Xcb.StateAtom | src/platform/xcbplatform/mod.rs:388-425 | an id is recognised only as a state atom with a flag, and only as the atom that has that id |
| Xcb.StateAtomIs | src/platform/xcbplatform/mod.rs:388-425 | with injective interning, an id is recognised as state atom `a` iff it is `a`'s id |
| Xcb.StateFlagBit | src/platform/xcbplatform/mod.rs:388-425 | the flag one id contributes has `a`'s bit iff the id is `a`'s |
| Xcb.WmStatesSnoc | src/platform/xcbplatform/mod.rs:386-427 | decoding one more id ORs in that id's flag |
| Xcb.WmStatesBit | src/platform/xcbplatform/mod.rs:377-431 | the decoded mask has a state atom's bit iff that atom's id is in the reply; other ids contribute nothing |
| Xcb.StateReadsBack | src/platform/xcbplatform/mod.rs:335-375 | `get_state_sys` reads back every state from what a window manager publishes for it |
| Xcb.MaximizedReadsBack | src/platform/xcbplatform/mod.rs:363-369 | both maximize atoms published, and no fullscreen, classify as `Maximized` |
| Xcb.FullscreenReadsBack | src/platform/xcbplatform/mod.rs:363-366 | the fullscreen atom classifies as `Fullscreen` |
| Xcb.UpdateFromMaximized | src/platform/xcbplatform/mod.rs:543-591 | from a maximized window, the undo-then-apply requests reach exactly what is published for the new state |
| Xcb.UpdateFromFullscreen | src/platform/xcbplatform/mod.rs:543-591 | from a fullscreen window, the requests reach exactly what is published for the new state |
| Xcb.UpdateFromUnmapped | src/platform/xcbplatform/mod.rs:543-591 | from a minimized or hidden window, mapping and applying reach exactly what is published for the new state |
| Xcb.ApplyFromNormal | src/platform/xcbplatform/mod.rs:567-590 | from a normal window, applying the new state reaches what is published for it |
| Xcb.UpdateHonoured | src/platform/xcbplatform/mod.rs:532-591 | for any two different states, the requests `update_state` sends take a window shown in the first to exactly the view of the second, which `get_state_sys` reads back as the second |
| Xcb.UpdateAsWrittenKeepsStaleState | src/platform/xcbplatform/mod.rs:532-591 | with `last_known_state` never recorded, so that every update starts from `Hidden`: a window maximized then asked to be normal still reads back `Maximized`, and a window shown normal then asked to hide sends no request and still reads back `Normal` |
| Xcb.UpdateRecordingState | src/platform/xcbplatform/mod.rs:532-591 | with the state recorded, maximize-then-normal ends `Normal` and show-then-hide ends `Hidden` |
| Xcb.CreatePosition | src/platform/xcbplatform/mod.rs:465-468 | the 640×480 window is centred on every screen size: the offset is half the spare width and height, truncated toward zero, so it is rounded down on a large screen and up (toward zero) on a screen smaller than the window |
| Xcb.XcbShared.constructor | src/platform/xcbplatform/mod.rs:94-145 | the shared state starts with no window and no request |
| Xcb.XcbWindow.constructor | src/platform/xcbplatform/mod.rs:259-272 | a new window is not created, has id 0, an empty rect and last known state `Hidden` |
| Xcb.XcbWindow.UpdateTitle | src/platform/xcbplatform/mod.rs:520-530 | a created window gets its name and icon name set to the base's title; otherwise nothing is sent |
| Xcb.XcbWindow.UpdateStateAsWritten | src/platform/xcbplatform/mod.rs:532-591 | nothing is sent unless the window is created and its state differs from the last known one; otherwise undo, apply, flush; the last known state is never updated |
| Xcb.XcbWindow.UpdateState | src/platform/xcbplatform/mod.rs:532-591 | the same requests, and the new state becomes the last known state |
| Xcb.XcbWindow.Create | src/platform/xcbplatform/mod.rs:455-512 | idempotent; otherwise the window is created under its fresh id, registered, centred at 640×480, subscribed to `WM_DELETE_WINDOW`, and sent its title and the requests from `Hidden` to its state; as written, `update_state` leaves the last known state `Hidden`, so a later `close` sends no unmap |
| Xcb.XcbWindow.CreateRecordingState | src/platform/xcbplatform/mod.rs:455-512 | `create` with the corrected `update_state`: the same requests, and the last known state is the state asked for |
| Xcb.XcbWindow.Close | src/platform/xcbplatform/mod.rs:593-607 | a no-op if not created; otherwise it unmaps only when the last known state is not `Hidden`, destroys, unregisters, and clears `created` and the id |
| Xcb.XcbWindow.HandleConfigureNotify | src/platform/xcbplatform/mod.rs:299-323 | fires move iff the position changed and resize iff the size changed; the rect becomes the new position and size |
| Xcb.XcbWindow.GetWmStates | src/platform/xcbplatform/mod.rs:377-431 | the loop computes the OR of the recognised atoms' flags, or `NET_WM_STATE_NONE` unless the reply is format 32 of type `ATOM` |
| Xcb.XcbWindow.GetStateSys | src/platform/xcbplatform/mod.rs:335-375 | not created or withdrawn is `Hidden`, iconic is `Minimized`, then fullscreen wins over both maximize bits, else `Normal` |
| Xcb.ResponseCode | src/platform/xcbplatform/mod.rs:208-224 | masking off the sent-event bit picks out exactly the event kind of each handled code |
| Xcb.XcbPlatform.constructor | src/platform/xcbplatform/mod.rs:94-145 | the platform starts with no exit code |
| Xcb.XcbPlatform.WindowOf | src/platform/xcbplatform/mod.rs:154-157 | a window is found iff its id is registered, and it is the created window with that id |
| Xcb.XcbPlatform.Exit | src/platform/xcbplatform/mod.rs:234-236 | `exit(code)` sets the exit code |
| Xcb.XcbPlatform.HandleConfigureNotify | src/platform/xcbplatform/mod.rs:180-184 | the registered window of that id reacts as its own handler states; every other window is unchanged |
| Xcb.XcbPlatform.HandleMapNotify | src/platform/xcbplatform/mod.rs:186-190 | only the registered window of that id fires its show handlers |
| Xcb.XcbPlatform.HandleUnmapNotify | src/platform/xcbplatform/mod.rs:192-196 | only the registered window of that id fires its hide handlers |
| Xcb.XcbPlatform.HandleClientMessage | src/platform/xcbplatform/mod.rs:159-178 | closes the window iff the message is `WM_PROTOCOLS`, format 32, `WM_DELETE_WINDOW`, for a registered window whose handler is unset or agrees; the closed window sends an unmap unless its last known state is `Hidden`, then destroy and flush, and is no longer created; the exit code becomes 0 only when that empties the registry and none was set |
| Xcb.XcbPlatform.HandleEvent | src/platform/xcbplatform/mod.rs:208-225 | only closes shrink the registry; an exit code once set stays, and is set here only to 0 when the last window closed |
| Xcb.XcbPlatform.LoopEvents | src/platform/xcbplatform/mod.rs:207-233 | stops after the first event that leaves an exit code set and returns it; stops only when the events run out otherwise |
| Win32Display.FirstResize | src/display/win32/mod.rs:394-403 | the position found is a resize with no resize before it |
| Win32Display.FirstResizeIs | src/display/win32/mod.rs:394-403 | the first resize is the only position with that property |
| Win32Display.PushKeepsOneResize | src/display/win32/mod.rs:386-407 | queueing keeps at most one resize; one is pending afterwards iff one was or the event is one; overwriting keeps the length and position, appending adds one |
| Win32Display.FeedSnoc | src/display/win32/mod.rs:386-407 | queueing one more event after a run is pushing it on the run's result |
| Win32Display.OthersSnoc | src/display/win32/mod.rs:386-407 | the non-resize events of an extended run |
| Win32Display.LastResizeSnoc | src/display/win32/mod.rs:386-407 | the last resize size of an extended run |
| Win32Display.FirstResizeSnoc | src/display/win32/mod.rs:394-403 | the first resize stays first when the run is extended |
| Win32Display.FeedAppend | src/display/win32/mod.rs:381-407 | queueing two runs in turn is queueing their concatenation |
| Win32Display.FeedWithoutResize | src/display/win32/mod.rs:381-384 | events other than resizes are appended as they come |
| Win32Display.CompressionStart | src/display/win32/mod.rs:386-391 | the first resize of a run is appended |
| Win32Display.CompressionExtendResize | src/display/win32/mod.rs:392-406 | a later resize overwrites only the pending resize's size |
| Win32Display.CompressionExtendOther | src/display/win32/mod.rs:381-384 | a later non-resize event goes after the pending resize |
| Win32Display.ResizeCompression | src/display/win32/mod.rs:381-407 | after any run queued with no resize pending, the buffer is the events before the first resize, one resize carrying the last size at that position, then the later non-resize events, in order |
| Win32Display.FeedShort | src/display/win32/mod.rs:381-407 | queueing nothing changes nothing, and queueing one event is one push |
| Win32Display.WindowShared.constructor | src/display/win32/mod.rs:324-331 | an empty buffer, no compression bit, a zero rect and state `Normal(None)` |
| Win32Display.WindowShared.StateChange | src/display/win32/mod.rs:333-340 | queues `State(s)` only when `s` differs from the recorded state, records `s`, and is always handled |
| Win32Display.WindowShared.GeomChange | src/display/win32/mod.rs:342-372 | always records the new rect; queues a resize and reports handled iff the width or height changed |
| Win32Display.WindowShared.StateGeomChange | src/display/win32/mod.rs:374-379 | a state change, then a geometry change; always handled |
| Win32Display.WindowShared.Event | src/display/win32/mod.rs:381-384 | appends the event; always handled |
| Win32Display.WindowShared.ResizeEvent | src/display/win32/mod.rs:386-407 | the resize is queued with compression, keeping the one-pending-resize invariant with `COMP_RESIZE` set exactly when a resize is pending |
| Win32Display.WndProc | src/display/win32/mod.rs:416-443 | without shared state nothing is handled; `WM_CLOSE` queues `Close`; `WM_SIZE` minimized, maximized or restored records that state (and the client rect for the last two); everything else is left to the default procedure and changes nothing |
| Win32Display.CreateStyle | src/display/win32/mod.rs:161-166 | the overlapped-window style, plus the maximize or minimize bit exactly for those states |
| Win32Display.CreatedState | src/display/win32/mod.rs:189-192 | creation records `Normal(None)` for `Fullscreen` and any other state as given |
| Win32Display.EnterCalls | src/display/win32/mod.rs:223-258 | entering fullscreen sends exactly three or four calls, in order: a restore first iff the window is zoomed, then the style and the extended style with only the caption and frame bits cleared, then the placement on the monitor; no show command and no maximize |
| Win32Display.LeaveCalls | src/display/win32/mod.rs:259-273 | leaving fullscreen sends exactly three or four calls, in order: the saved style, the saved extended style, the placement at the saved rect, then a maximize iff the window was zoomed |
| Win32Display.ApplyCalls | src/display/win32/mod.rs:277-297 | the show command of the new state, with the requested size for `Normal(Some(..))`; nothing for `Fullscreen` |
| Win32Display.FullscreenRoundTrip | src/display/win32/mod.rs:223-273 | going fullscreen and back first writes back the style, extended style and rect the system reported, in that order and with no later style write, then re-maximizes iff the window was zoomed; entering restores a zoomed window first |
| Win32Display.Window.constructor | src/display/win32/mod.rs:145-157 | no native window, no shared state, an empty title and zero saved info |
| Win32Display.Window.Create | src/display/win32/mod.rs:159-193 | one creation call with the state's style and size; a fresh shared record with the created state |
| Win32Display.Window.SetTitle | src/display/win32/mod.rs:203-210 | `title()` then returns the new title; the native window, if any, is renamed |
| Win32Display.Window.Title | src/display/win32/mod.rs:198-201 | `title()` answers the title last stored, so it is `t` after `set_title(t)` |
| Win32Display.Window.Show | src/display/win32/mod.rs:212-300 | creates only when there is no handle; returns without further calls when the state equals the recorded one; otherwise enters or leaves fullscreen and applies the state, ending with it recorded |
| Win32Display.Window.ChangeState | src/display/win32/mod.rs:219-299 | the transition part of `show`: no native call for the same state; otherwise the transition calls, with info saved only when entering fullscreen |
| Win32Display.Window.RetrieveEvents | src/display/win32/mod.rs:302-310 | returns exactly the pending events in order and leaves the buffer empty and the mask 0; empty with no shared state |
| Win32Display.Window.Close | src/display/win32/mod.rs:312-319 | idempotent: destroys an existing window once and leaves no handle and no shared state |
| Win32Platform.ToIRect | src/platform/win32platform/mod.rs:46-50 | `IRect::from(RECT)` has the RECT's top-left corner, and its far edges are the RECT's right and bottom |
| Win32Platform.ToRect | src/platform/win32platform/mod.rs:51-57 | `RECT::from(IRect)` has the rect's corner as left and top, and spans its width and height |
| Win32Platform.Area | src/platform/win32platform/mod.rs:59-64 | `area()` of a RECT is the width times the height of the IRect it converts to |
| Win32Platform.RectRoundTrip | src/platform/win32platform/mod.rs:46-64 | RECT to IRect to RECT is the identity, and the RECT's area is the IRect's width times height |
| Win32Platform.IRectRoundTrip | src/platform/win32platform/mod.rs:46-64 | IRect to RECT to IRect is the identity, and the area of the RECT is `w*h` |
| Win32Platform.Win32Window.constructor | src/platform/win32platform/mod.rs:232-238 | the handle given, an empty title and no close handler |
| Win32Platform.Win32Window.SetTitle | src/platform/win32platform/mod.rs:249-254 | `title()` after `set_title(t)` is `t` |
| Win32Platform.Win32Window.Title | src/platform/win32platform/mod.rs:249-251 | `title()` answers the title last stored, so it is `t` after `set_title(t)` |
| Win32Platform.Win32Window.State | src/platform/win32platform/mod.rs:256-258 | this backend always reports `Hidden` |
| Win32Platform.Win32Window.SetState | src/platform/win32platform/mod.rs:259-261 | any state only shows the window normally |
| Win32Platform.SharedPlatform.constructor | src/platform/win32platform/mod.rs:87-95 | no window and no exit code |
| Win32Platform.SharedPlatform.CloseWindow | src/platform/win32platform/mod.rs:203-216 | removes the window iff its handler is unset or agrees; the exit code becomes 0 only when the map becomes empty and none was set |
| Win32Platform.SharedPlatform.WndProcAsWritten | src/platform/win32platform/mod.rs:201-220 | the close logic, and the message is never reported handled |
| Win32Platform.SharedPlatform.WndProc | src/platform/win32platform/mod.rs:201-220 | the close logic, and a close the handler refused is reported handled |
| Win32Platform.Win32Platform.constructor | src/platform/win32platform/mod.rs:87-95 | no window, no exit code, no registered class |
| Win32Platform.Win32Platform.RegisterWndCls | src/platform/win32platform/mod.rs:98-126 | always returns the class name, which is then registered; the class is registered natively at most once |
| Win32Platform.Win32Platform.CreateWindow | src/platform/win32platform/mod.rs:130-155 | exactly one new window, keyed by its handle, with an empty title and no close handler; nothing else in the map changes |
| Win32Platform.Win32Platform.WindowOf | src/platform/win32platform/mod.rs:156-158 | `window(id)` for a registered id finds the window with that handle |
| Win32Platform.Win32Platform.Exit | src/platform/win32platform/mod.rs:181-183 | `exit(code)` sets the exit code |
| Win32Platform.Win32Platform.Win32WndProc | src/platform/win32platform/mod.rs:186-220 | with the corrected `wnd_proc`, a window is destroyed natively exactly when it leaves the map, so no registered window is ever destroyed |
| Win32Platform.Win32Platform.Win32WndProcAsWritten | src/platform/win32platform/mod.rs:186-220 | as written, every `WM_CLOSE` reaches `DefWindowProcW`, which destroys the window even when the handler refused and it stays registered |
| Win32Platform.Win32Platform.LoopEvents | src/platform/win32platform/mod.rs:165-180 | with the corrected window procedure: a `GetMessageW` result of 0 or -1 becomes the exit code; the loop returns after the first message that leaves a code set; no registered window is ever destroyed |
| Win32Platform.Win32Platform.LoopEventsAsWritten | src/platform/win32platform/mod.rs:165-220 | the loop as written, dispatching through `wnd_proc` as written: the same exit-code rule; windows only leave the map, each one that leaves was destroyed natively, and the class registration stays consistent, but a registered window may be dead |
| Render.FindSurfCompAlpha | src/render/mod.rs:242-256 | the result is supported, and it is the first mode in `COMPALPHA_ORDER` that is |
| Render.FindFirst | src/render/mod.rs:258-272 | the first element satisfying the predicate, or `None` when none does |
| Render.FindSurfFormat | src/render/mod.rs:258-272 | `Rgba8Unorm` with no preference or when supported; else the first supported unorm format; else the first supported format |
| Render.ImageCount | src/render/mod.rs:284 | the image count is the larger of 2 and the surface's minimum |
| Render.RenderWindow.constructor | src/render/mod.rs:209-239 | `Window::new` keeps the info's token and starts with `must_rebuild` false |
| Render.Renderer.constructor | src/render/mod.rs:69-109 | one window per initial token, in order, none needing a rebuild |
| Render.Renderer.WindowOpen | src/render/mod.rs:110-112 | appends one window for the token, needing no rebuild |
| Render.Renderer.WindowClose | src/render/mod.rs:113 | changes nothing |
| Render.Renderer.Frame | src/render/mod.rs:114-174 | finds the first window with the token and marks it for a rebuild iff it was already or the swapchain was out of date or presenting failed; no other window changes |
| Render.FirstExit | src/render/mod.rs:40-56 | the position of the first `Exit`, every earlier message not being one |
| Render.Handle | src/render/mod.rs:41-55 | one turn of the loop's `match` on a message other than `Exit`: an open appends its token and no other message changes the token list, every window is an old or a fresh one, and a frame keeps the rule that a window needs a rebuild only if one of its frames failed |
| Render.RenderLoop | src/render/mod.rs:34-57 | handles exactly the messages before the first `Exit`; the windows are the initial ones followed by those opened; a window needs a rebuild only if one of its frames failed |

## Left out

- Integer widths: the model uses unbounded integers. It does not model `i32` overflow in the RECT/IRect conversions and `area`, the `as u16`/`as i16` casts of the XCB geometry, or `c_int` casts of requested sizes.
- Atom interning and screen lookup in `XcbPlatform::new`: the interned ids are a parameter (`atomOf`), required injective and non-zero.
- `get_position_sys` (`translate_coordinates`) is a parameter of the configure handler, `None` when the request fails.
- Connection and native failures: a null `HWND`, a failed `RegisterClassExW` (which panics), and an XCB connection error are assumed not to happen.
- `loop_events` on XCB panics when the connection ends before an exit code is set; the model returns `None` instead.
- The `Drop` impls (`XcbWindow` closes itself, the Win32 window and display) are not modelled. Closing is modelled where the source calls it.
- The back pointer `set_window_long_ptr` stores is modelled as the `WindowShared`/`SharedPlatform` object the window procedure receives.
- UTF-16 conversion (`to_u16`) is left out; titles and class names are plain strings.
- Handler identity (`h_to_id` hashes the closure's address) is an opaque id carried with each handler.
- Closures run by handlers are pure functions of a world value, not arbitrary side effects.
- The Win32 display's `geom_change` reads the window and frame rects through native calls. The model takes the resulting client rect as a parameter.
- Render: the GPU is abstracted away:
  - adapter selection, swapchain and image creation, command recording and submission, and fences;
  - acquire errors other than out-of-date, which panic in the source;
  - the assertions on usage and present mode in `build_swapchain`.
- Render.FindSurfCompAlpha: requires some mode of `COMPALPHA_ORDER` to be supported, since the source panics otherwise.
- Render.FindSurfFormat: requires a supported-format list to be non-empty, since the source indexes its first element.
- Render.RenderLoop: requires every frame message to name a window open at that point, since the source panics on an unknown token.
- Win32Display.Window.Show: the system calls the window procedure back synchronously from `SendMessageW`, `SetWindowPos` and `ShowWindow`, which can queue `State` and `Resize` events and rewrite the shared rect and state. The native call log has no callback, so `Show` and `ChangeState` state the event buffer and the rect unchanged. That holds only when the system does not call back.
- Win32Platform.Win32Platform.CreateWindow: requires that the new handle was never destroyed before, which assumes the system does not reuse a handle value.
- `render/frame.rs` and the `Frames` message payload are not modelled beyond being ignored, as in the source.
- The Wayland display and the Win32 `Display` type (class registration of the display backend, `collect_events`) are not part of this model.
- The XCB keyboard and dri2 code are not part of this model.

## Findings

| source | as written | input that shows it | evidently intended | confidence | as-written member | corrected member |
|---|---|---|---|---|---|---|
| src/platform/xcbplatform/mod.rs:532-591 | `update_state` never stores the new state in `last_known_state`, so every later update undoes `Hidden` (a map) instead of the state it last asked for | create a window `Maximized`, then set it `Normal`: only `MapWindow` is sent and the window manager keeps it maximized; set `Normal` then `Hidden`: nothing is sent | record `last_known_state = new_state` after sending, so each update undoes the previous one | high, not executed | Xcb.UpdateAsWrittenKeepsStaleState | Xcb.UpdateRecordingState |
| src/platform/win32platform/mod.rs:201-220 | `wnd_proc` returns `false` for `WM_CLOSE`, so `DefWindowProcW` runs and destroys the window even when `on_close` refused and the window stays in the map | a `WM_CLOSE` for a window whose close handler returns `false` | report a vetoed close as handled, so that the window survives | medium, not executed | Win32Platform.Win32Platform.Win32WndProcAsWritten | Win32Platform.Win32Platform.Win32WndProc |
