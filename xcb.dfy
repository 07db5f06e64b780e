/** The XCB platform (src/platform/xcbplatform/mod.rs): the atoms it interns, how it reads a
    window's state back from the window manager through `WM_STATE` (section 4.1.3.1 of the
    ICCCM) and `_NET_WM_STATE` (Extended Window Manager Hints), how it asks for a new state
    through `WM_CHANGE_STATE` (section 4.1.4 of the ICCCM) and `_NET_WM_STATE` client
    messages, the registry of created windows, `WM_DELETE_WINDOW` handling (section 4.2.8.1
    of the ICCCM) and the event loop.

    The X connection is modelled by the log of requests sent on it; the replies the source
    waits for (properties, translated coordinates, the next event) are parameters. Atoms are
    interned once by the platform; `atomOf` gives each one's server id. */
module Xcb {
  import opened Common
  import Geometry
  import Window

  // ---------------------------------------------------------------------------------------
  // Atoms

  /** The atoms the platform interns, in declaration order (`iterable_key_enum!`). */
  datatype Atom =
    | Utf8String
    | WmProtocols
    | WmDeleteWindow
    | WmTransientFor
    | WmChangeState
    | WmState
    | NetWmState
    | NetWmStateModal
    | NetWmStateSticky
    | NetWmStateMaximizedVert
    | NetWmStateMaximizedHorz
    | NetWmStateShaded
    | NetWmStateSkipTaskbar
    | NetWmStateSkipPager
    | NetWmStateHidden
    | NetWmStateFullscreen
    | NetWmStateAbove
    | NetWmStateBelow
    | NetWmStateDemandsAttention
    | NetWmStateFocused
    | NetWmName

  /** `Atom::variants()`. */
  const Variants: seq<Atom> := [
    Utf8String, WmProtocols, WmDeleteWindow, WmTransientFor, WmChangeState, WmState,
    NetWmState, NetWmStateModal, NetWmStateSticky, NetWmStateMaximizedVert,
    NetWmStateMaximizedHorz, NetWmStateShaded, NetWmStateSkipTaskbar, NetWmStateSkipPager,
    NetWmStateHidden, NetWmStateFullscreen, NetWmStateAbove, NetWmStateBelow,
    NetWmStateDemandsAttention, NetWmStateFocused, NetWmName]

  /** `Atom::num_variants()`. */
  function NumVariants(): nat
  {
    |Variants|
  }

  /** The declaration position of an atom. */
  function Ordinal(a: Atom): nat
  {
    match a
    case Utf8String => 0
    case WmProtocols => 1
    case WmDeleteWindow => 2
    case WmTransientFor => 3
    case WmChangeState => 4
    case WmState => 5
    case NetWmState => 6
    case NetWmStateModal => 7
    case NetWmStateSticky => 8
    case NetWmStateMaximizedVert => 9
    case NetWmStateMaximizedHorz => 10
    case NetWmStateShaded => 11
    case NetWmStateSkipTaskbar => 12
    case NetWmStateSkipPager => 13
    case NetWmStateHidden => 14
    case NetWmStateFullscreen => 15
    case NetWmStateAbove => 16
    case NetWmStateBelow => 17
    case NetWmStateDemandsAttention => 18
    case NetWmStateFocused => 19
    case NetWmName => 20
  }

  /** `variants()` yields every atom exactly once, in declaration order, and
      `num_variants()` counts them. */
  lemma VariantsExactlyOnce()
    ensures NumVariants() == 21
    ensures forall a: Atom :: Ordinal(a) < NumVariants() && Variants[Ordinal(a)] == a
    ensures forall i | 0 <= i < |Variants| :: Ordinal(Variants[i]) == i
  {
    forall a: Atom
      ensures Ordinal(a) < NumVariants() && Variants[Ordinal(a)] == a
    {
      match a
      case Utf8String =>
      case WmProtocols =>
      case WmDeleteWindow =>
      case WmTransientFor =>
      case WmChangeState =>
      case WmState =>
      case NetWmState =>
      case NetWmStateModal =>
      case NetWmStateSticky =>
      case NetWmStateMaximizedVert =>
      case NetWmStateMaximizedHorz =>
      case NetWmStateShaded =>
      case NetWmStateSkipTaskbar =>
      case NetWmStateSkipPager =>
      case NetWmStateHidden =>
      case NetWmStateFullscreen =>
      case NetWmStateAbove =>
      case NetWmStateBelow =>
      case NetWmStateDemandsAttention =>
      case NetWmStateFocused =>
      case NetWmName =>
    }
  }

  /** Server ids of distinct atoms differ (the server interns one atom per name). */
  predicate Injective(atomOf: Atom -> nat)
  {
    forall a: Atom, b: Atom :: atomOf(a) == atomOf(b) ==> a == b
  }

  // ---------------------------------------------------------------------------------------
  // Protocol constants

  const XCB_ICCCM_WM_STATE_WITHDRAWN: nat := 0
  const XCB_ICCCM_WM_STATE_NORMAL: nat := 1
  const XCB_ICCCM_WM_STATE_ICONIC: nat := 3

  const NET_WM_STATE_NONE: bv32 := 0x0000
  const NET_WM_STATE_MODAL: bv32 := 0x0001
  const NET_WM_STATE_STICKY: bv32 := 0x0002
  const NET_WM_STATE_MAXIMIZED_VERT: bv32 := 0x0004
  const NET_WM_STATE_MAXIMIZED_HORZ: bv32 := 0x0008
  const NET_WM_STATE_MAXIMIZED: bv32 := 0x000C
  const NET_WM_STATE_SHADED: bv32 := 0x0010
  const NET_WM_STATE_SKIP_TASKBAR: bv32 := 0x0020
  const NET_WM_STATE_SKIP_PAGER: bv32 := 0x0040
  const NET_WM_STATE_HIDDEN: bv32 := 0x0080
  const NET_WM_STATE_FULLSCREEN: bv32 := 0x0100
  const NET_WM_STATE_ABOVE: bv32 := 0x0200
  const NET_WM_STATE_BELOW: bv32 := 0x0400
  const NET_WM_STATE_DEMANDS_ATTENTION: bv32 := 0x0800
  const NET_WM_STATE_FOCUSED: bv32 := 0x1000

  // predefined atoms of the core protocol
  const ATOM_ATOM: nat := 4
  const ATOM_STRING: nat := 31
  const ATOM_WM_ICON_NAME: nat := 37
  const ATOM_WM_NAME: nat := 39

  // event masks
  const EVENT_MASK_STRUCTURE_NOTIFY: bv32 := 0x0002_0000
  const EVENT_MASK_SUBSTRUCTURE_NOTIFY: bv32 := 0x0008_0000
  const EVENT_MASK_SUBSTRUCTURE_REDIRECT: bv32 := 0x0010_0000

  /** The size every window is created with. */
  const CREATE_WIDTH: int := 640
  const CREATE_HEIGHT: int := 480

  /** The flag of each `_NET_WM_STATE_*` atom the platform decodes; 0 for other atoms. */
  function FlagOf(a: Atom): bv32
  {
    match a
    case NetWmStateModal => NET_WM_STATE_MODAL
    case NetWmStateSticky => NET_WM_STATE_STICKY
    case NetWmStateMaximizedVert => NET_WM_STATE_MAXIMIZED_VERT
    case NetWmStateMaximizedHorz => NET_WM_STATE_MAXIMIZED_HORZ
    case NetWmStateShaded => NET_WM_STATE_SHADED
    case NetWmStateSkipTaskbar => NET_WM_STATE_SKIP_TASKBAR
    case NetWmStateSkipPager => NET_WM_STATE_SKIP_PAGER
    case NetWmStateHidden => NET_WM_STATE_HIDDEN
    case NetWmStateFullscreen => NET_WM_STATE_FULLSCREEN
    case NetWmStateAbove => NET_WM_STATE_ABOVE
    case NetWmStateBelow => NET_WM_STATE_BELOW
    case NetWmStateDemandsAttention => NET_WM_STATE_DEMANDS_ATTENTION
    case NetWmStateFocused => NET_WM_STATE_FOCUSED
    case _ => 0
  }

  /** The decoded flags are distinct single bits, and `NET_WM_STATE_MAXIMIZED` is both
      maximize flags. */
  lemma StateFlags()
    ensures NET_WM_STATE_MAXIMIZED == NET_WM_STATE_MAXIMIZED_VERT | NET_WM_STATE_MAXIMIZED_HORZ
    ensures forall a: Atom, b: Atom | FlagOf(a) != 0 && FlagOf(b) != 0 ::
      (FlagOf(a) & FlagOf(b) != 0 <==> a == b)
  {
  }

  /** The state atom the decoding loop recognises in one atom id of the reply: the first
      one, in the loop's order, whose id it is. */
  function StateAtom(atomOf: Atom -> nat, v: nat): (r: Option<Atom>)
    ensures r.Some? ==> FlagOf(r.value) != 0 && atomOf(r.value) == v
  {
    if v == atomOf(NetWmStateModal) then Some(NetWmStateModal)
    else if v == atomOf(NetWmStateSticky) then Some(NetWmStateSticky)
    else if v == atomOf(NetWmStateMaximizedVert) then Some(NetWmStateMaximizedVert)
    else if v == atomOf(NetWmStateMaximizedHorz) then Some(NetWmStateMaximizedHorz)
    else if v == atomOf(NetWmStateShaded) then Some(NetWmStateShaded)
    else if v == atomOf(NetWmStateSkipTaskbar) then Some(NetWmStateSkipTaskbar)
    else if v == atomOf(NetWmStateSkipPager) then Some(NetWmStateSkipPager)
    else if v == atomOf(NetWmStateHidden) then Some(NetWmStateHidden)
    else if v == atomOf(NetWmStateFullscreen) then Some(NetWmStateFullscreen)
    else if v == atomOf(NetWmStateAbove) then Some(NetWmStateAbove)
    else if v == atomOf(NetWmStateBelow) then Some(NetWmStateBelow)
    else if v == atomOf(NetWmStateDemandsAttention) then Some(NetWmStateDemandsAttention)
    else if v == atomOf(NetWmStateFocused) then Some(NetWmStateFocused)
    else None
  }

  /** With distinct ids, an id is recognised as a state atom exactly when it is that atom's
      id. */
  lemma StateAtomIs(atomOf: Atom -> nat, v: nat, a: Atom)
    requires Injective(atomOf) && FlagOf(a) != 0
    ensures StateAtom(atomOf, v) == Some(a) <==> v == atomOf(a)
  {
  }

  /** The flag the decoding loop ORs in for one atom id of the reply; nothing for an id it
      does not recognise. */
  function StateFlag(atomOf: Atom -> nat, v: nat): bv32
  {
    match StateAtom(atomOf, v)
    case Some(a) => FlagOf(a)
    case None => NET_WM_STATE_NONE
  }

  /** The OR of the flags of the atom ids `vals`. */
  function WmStates(atomOf: Atom -> nat, vals: seq<nat>): bv32
    decreases |vals|
  {
    if vals == [] then NET_WM_STATE_NONE
    else WmStates(atomOf, vals[..|vals| - 1]) | StateFlag(atomOf, vals[|vals| - 1])
  }

  /** With distinct ids, an id carries the flag of a state atom exactly when it is that
      atom's id. */
  lemma StateFlagBit(atomOf: Atom -> nat, v: nat, a: Atom)
    requires Injective(atomOf) && FlagOf(a) != 0
    ensures StateFlag(atomOf, v) & FlagOf(a) != 0 <==> v == atomOf(a)
  {
    StateAtomIs(atomOf, v, a);
    StateFlags();
  }

  /** A bit of an OR is set exactly when it is set in one of the operands. */
  lemma OrBit(x: bv32, y: bv32, f: bv32)
    ensures ((x | y) & f != 0) == (x & f != 0 || y & f != 0)
  {
  }

  /** Decoding one more id ORs in its flag. */
  lemma WmStatesSnoc(atomOf: Atom -> nat, vals: seq<nat>, i: nat)
    requires i < |vals|
    ensures WmStates(atomOf, vals[..i + 1]) == WmStates(atomOf, vals[..i]) | StateFlag(atomOf, vals[i])
  {
    assert vals[..i + 1][..i] == vals[..i];
  }

  /** A state atom's flag is set in the decoded states exactly when its id is in the reply;
      ids of other atoms and unknown ids leave no trace. */
  lemma {:induction false} WmStatesBit(atomOf: Atom -> nat, vals: seq<nat>, a: Atom)
    requires Injective(atomOf) && FlagOf(a) != 0
    ensures WmStates(atomOf, vals) & FlagOf(a) != 0 <==> atomOf(a) in vals
    decreases |vals|
  {
    if vals != [] {
      var p := vals[..|vals| - 1];
      var v := vals[|vals| - 1];
      WmStatesBit(atomOf, p, a);
      StateFlagBit(atomOf, v, a);
      assert vals == p + [v];
      OrBit(WmStates(atomOf, p), StateFlag(atomOf, v), FlagOf(a));
    }
  }

  /** A property reply: its format, its type and its 32-bit values. */
  datatype PropertyReply = PropertyReply(format: nat, type_: nat, value: seq<nat>)

  /** The states decoded from a `_NET_WM_STATE` reply (`None` when the request failed):
      nothing unless the reply holds 32-bit atoms. */
  function NetStates(atomOf: Atom -> nat, reply: Option<PropertyReply>): bv32
  {
    if reply.Some? && reply.value.format == 32 && reply.value.type_ == ATOM_ATOM
    then WmStates(atomOf, reply.value.value)
    else NET_WM_STATE_NONE
  }

  /** The first value of a `WM_STATE` reply, when the reply is a non-empty 32-bit
      `WM_STATE` property. */
  function WmStateValue(wmStateAtom: nat, reply: Option<PropertyReply>): Option<nat>
  {
    if reply.Some? && reply.value.format == 32 && reply.value.type_ == wmStateAtom &&
       |reply.value.value| > 0
    then Some(reply.value.value[0])
    else None
  }

  /** `get_state_sys` as a function of what it reads: a window not created is hidden; a
      withdrawn window is hidden and an iconic one minimized; otherwise the fullscreen flag
      wins over the two maximize flags, and the rest is normal. */
  function StateSys(created: bool, wmState: Option<nat>, states: bv32): Window.State
  {
    if !created then Window.Hidden
    else if wmState == Some(XCB_ICCCM_WM_STATE_WITHDRAWN) then Window.Hidden
    else if wmState == Some(XCB_ICCCM_WM_STATE_ICONIC) then Window.Minimized
    else if states & NET_WM_STATE_FULLSCREEN != 0 then Window.Fullscreen
    else if states & NET_WM_STATE_MAXIMIZED == NET_WM_STATE_MAXIMIZED then Window.Maximized
    else Window.Normal
  }

  // ---------------------------------------------------------------------------------------
  // Requests

  /** A request sent on the connection. */
  datatype Request =
    | CreateWindow(win: nat, parent: nat, x: int, y: int, w: int, h: int)
    | ChangeAtomProperty(win: nat, property: nat, values: seq<nat>)
    | ChangeStringProperty(win: nat, property: nat, text: string)
    | MapWindow(win: nat)
    | UnmapWindow(win: nat)
    | DestroyWindow(win: nat)
    | SendEvent(destination: nat, mask: bv32, win: nat, messageType: nat, data: seq<nat>)
    | Flush

  /** `set_wm_state(yes, atom1, atom2)`: a `_NET_WM_STATE` add or remove message for one or
      two atoms, sent to the root window. */
  function SetWmState(atomOf: Atom -> nat, root: nat, win: nat, yes: bool, atom1: nat, atom2: nat): Request
  {
    SendEvent(root,
      EVENT_MASK_STRUCTURE_NOTIFY | EVENT_MASK_SUBSTRUCTURE_NOTIFY | EVENT_MASK_SUBSTRUCTURE_REDIRECT,
      win, atomOf(NetWmState), [if yes then 1 else 0, atom1, atom2, 0, 0])
  }

  /** The message asking the window manager to add or remove both maximize atoms. */
  function Maximize(atomOf: Atom -> nat, root: nat, win: nat, yes: bool): Request
  {
    SetWmState(atomOf, root, win, yes, atomOf(NetWmStateMaximizedHorz), atomOf(NetWmStateMaximizedVert))
  }

  /** The message asking the window manager to add or remove the fullscreen atom. */
  function MakeFullscreen(atomOf: Atom -> nat, root: nat, win: nat, yes: bool): Request
  {
    SetWmState(atomOf, root, win, yes, atomOf(NetWmStateFullscreen), 0)
  }

  /** The requests that take a window out of `prior`, back to normal. */
  function UndoRequests(atomOf: Atom -> nat, root: nat, win: nat, prior: Window.State): seq<Request>
  {
    match prior
    case Maximized => [Maximize(atomOf, root, win, false)]
    case Fullscreen => [MakeFullscreen(atomOf, root, win, false)]
    case Minimized => [MapWindow(win)]
    case Hidden => [MapWindow(win)]
    case Normal => []
  }

  /** The requests that take a normal window into `next`: an iconify request per section
      4.1.4 of the ICCCM, a `_NET_WM_STATE` add message, or an unmap. */
  function ApplyRequests(atomOf: Atom -> nat, root: nat, win: nat, next: Window.State): seq<Request>
  {
    match next
    case Minimized =>
      [SendEvent(root, EVENT_MASK_STRUCTURE_NOTIFY | EVENT_MASK_SUBSTRUCTURE_NOTIFY, win,
                 atomOf(WmChangeState), [XCB_ICCCM_WM_STATE_ICONIC, 0, 0, 0, 0])]
    case Maximized => [Maximize(atomOf, root, win, true)]
    case Fullscreen => [MakeFullscreen(atomOf, root, win, true)]
    case Hidden => [UnmapWindow(win)]
    case Normal => []
  }

  /** The requests of `update_title`: the title as the window's name and icon name. */
  function TitleRequests(win: nat, title: string): seq<Request>
  {
    [ChangeStringProperty(win, ATOM_WM_NAME, title), ChangeStringProperty(win, ATOM_WM_ICON_NAME, title)]
  }

  /** The requests of `update_state` going from `prior` to another state `next`. */
  function UpdateRequests(atomOf: Atom -> nat, root: nat, win: nat, prior: Window.State,
                          next: Window.State): seq<Request>
  {
    UndoRequests(atomOf, root, win, prior) + ApplyRequests(atomOf, root, win, next) + [Flush]
  }

  /** What one call of `update_state` sends for a window whose last known state is `last`
      and whose base asks for `asked`: nothing unless it is created and the two differ. */
  function UpdateSent(atomOf: Atom -> nat, root: nat, win: nat, created: bool,
                      last: Window.State, asked: Window.State): (rs: seq<Request>)
    ensures rs == [] <==> !created || asked == last
  {
    if created && asked != last then UpdateRequests(atomOf, root, win, last, asked) else []
  }

  // ---------------------------------------------------------------------------------------
  // A reference window manager

  /** Atom ids as the server interns them: distinct, and never 0 (`XCB_ATOM_NONE`). */
  predicate Interned(atomOf: Atom -> nat)
  {
    Injective(atomOf) && forall a: Atom :: atomOf(a) != 0
  }

  /** What a window manager publishes about one window: its `WM_STATE` and the ids in its
      `_NET_WM_STATE`. */
  datatype WmView = WmView(wmState: nat, netState: seq<nat>)

  /** The state `get_state_sys` reads from what the window manager publishes about a created
      window. */
  function Classify(atomOf: Atom -> nat, v: WmView): Window.State
  {
    StateSys(true, Some(v.wmState), WmStates(atomOf, v.netState))
  }

  /** The view a window manager publishes for a window in state `s`. */
  function Published(atomOf: Atom -> nat, s: Window.State): WmView
  {
    match s
    case Normal => WmView(XCB_ICCCM_WM_STATE_NORMAL, [])
    case Maximized =>
      WmView(XCB_ICCCM_WM_STATE_NORMAL, [atomOf(NetWmStateMaximizedHorz), atomOf(NetWmStateMaximizedVert)])
    case Fullscreen => WmView(XCB_ICCCM_WM_STATE_NORMAL, [atomOf(NetWmStateFullscreen)])
    case Minimized => WmView(XCB_ICCCM_WM_STATE_ICONIC, [])
    case Hidden => WmView(XCB_ICCCM_WM_STATE_WITHDRAWN, [])
  }

  /** `_NET_WM_STATE_ADD` of one atom id; 0 stands for no atom. */
  function AddId(ids: seq<nat>, a: nat): seq<nat>
  {
    if a == 0 || a in ids then ids else ids + [a]
  }

  /** `_NET_WM_STATE_REMOVE` of one atom id; 0 stands for no atom. The reference window
      manager applies it when `update_state` undoes maximized or fullscreen. */
  function RemoveId(ids: seq<nat>, a: nat): (r: seq<nat>)
    ensures a != 0 ==> a !in r
    ensures forall x | x in r :: x in ids
  {
    if ids == [] then []
    else if a != 0 && ids[0] == a then RemoveId(ids[1..], a)
    else [ids[0]] + RemoveId(ids[1..], a)
  }

  /** How a window manager honours one request concerning window `win`: a `_NET_WM_STATE`
      message adds or removes its two atoms (Extended Window Manager Hints), a
      `WM_CHANGE_STATE` message to iconic state iconifies the window (section 4.1.4 of the
      ICCCM), mapping makes it normal and unmapping withdraws it. */
  function Honour(atomOf: Atom -> nat, win: nat, v: WmView, r: Request): WmView
  {
    match r
    case SendEvent(_, _, w, t, data) =>
      if w != win || |data| < 3 then v
      else if t == atomOf(NetWmState) && data[0] == 1 then
        v.(netState := AddId(AddId(v.netState, data[1]), data[2]))
      else if t == atomOf(NetWmState) && data[0] == 0 then
        v.(netState := RemoveId(RemoveId(v.netState, data[1]), data[2]))
      else if t == atomOf(WmChangeState) && data[0] == XCB_ICCCM_WM_STATE_ICONIC then
        v.(wmState := XCB_ICCCM_WM_STATE_ICONIC)
      else v
    case MapWindow(w) => if w == win then v.(wmState := XCB_ICCCM_WM_STATE_NORMAL) else v
    case UnmapWindow(w) => if w == win then v.(wmState := XCB_ICCCM_WM_STATE_WITHDRAWN) else v
    case _ => v
  }

  /** A window manager honouring the requests in order. */
  function HonourAll(atomOf: Atom -> nat, win: nat, v: WmView, rs: seq<Request>): WmView
    decreases |rs|
  {
    if rs == [] then v else HonourAll(atomOf, win, Honour(atomOf, win, v, rs[0]), rs[1..])
  }

  /** A window with both maximize atoms and nothing else reads as maximized. */
  lemma MaximizedReadsBack(atomOf: Atom -> nat)
    requires Injective(atomOf)
    ensures Classify(atomOf, Published(atomOf, Window.Maximized)) == Window.Maximized
  {
    var ids := Published(atomOf, Window.Maximized).netState;
    WmStatesBit(atomOf, ids, NetWmStateMaximizedHorz);
    WmStatesBit(atomOf, ids, NetWmStateMaximizedVert);
    WmStatesBit(atomOf, ids, NetWmStateFullscreen);
    var st := WmStates(atomOf, ids);
    OrBit(st & NET_WM_STATE_MAXIMIZED_VERT, st & NET_WM_STATE_MAXIMIZED_HORZ, NET_WM_STATE_MAXIMIZED);
  }

  /** A window with the fullscreen atom reads as fullscreen. */
  lemma FullscreenReadsBack(atomOf: Atom -> nat)
    requires Injective(atomOf)
    ensures Classify(atomOf, Published(atomOf, Window.Fullscreen)) == Window.Fullscreen
  {
    WmStatesBit(atomOf, Published(atomOf, Window.Fullscreen).netState, NetWmStateFullscreen);
  }

  /** `get_state_sys` reads back every state from what a window manager publishes for it. */
  lemma StateReadsBack(atomOf: Atom -> nat, s: Window.State)
    requires Injective(atomOf)
    ensures Classify(atomOf, Published(atomOf, s)) == s
  {
    match s
    case Maximized => MaximizedReadsBack(atomOf);
    case Fullscreen => FullscreenReadsBack(atomOf);
    case _ =>
  }

  /** Leaving the maximized state, for every next state. */
  lemma UpdateFromMaximized(atomOf: Atom -> nat, root: nat, win: nat, next: Window.State)
    requires Interned(atomOf) && next != Window.Maximized
    ensures HonourAll(atomOf, win, Published(atomOf, Window.Maximized),
                      UpdateRequests(atomOf, root, win, Window.Maximized, next)) ==
            Published(atomOf, next)
  {
    var horz := atomOf(NetWmStateMaximizedHorz);
    var vert := atomOf(NetWmStateMaximizedVert);
    assert RemoveId(RemoveId([horz, vert], horz), vert) == [] by {
      assert horz != vert;
      assert RemoveId([vert], horz) == [vert];
    }
    HonourOne(atomOf, win, Published(atomOf, Window.Maximized),
              UndoRequests(atomOf, root, win, Window.Maximized)[0]);
    var undone := HonourAll(atomOf, win, Published(atomOf, Window.Maximized),
                            UndoRequests(atomOf, root, win, Window.Maximized));
    assert undone == Published(atomOf, Window.Normal);
    assert UpdateRequests(atomOf, root, win, Window.Maximized, next) ==
      UndoRequests(atomOf, root, win, Window.Maximized) + (ApplyRequests(atomOf, root, win, next) + [Flush]);
    HonourAllAppend(atomOf, win, Published(atomOf, Window.Maximized),
                    UndoRequests(atomOf, root, win, Window.Maximized),
                    ApplyRequests(atomOf, root, win, next) + [Flush]);
    ApplyFromNormal(atomOf, root, win, next);
  }

  /** Leaving the fullscreen state, for every next state. */
  lemma UpdateFromFullscreen(atomOf: Atom -> nat, root: nat, win: nat, next: Window.State)
    requires Interned(atomOf) && next != Window.Fullscreen
    ensures HonourAll(atomOf, win, Published(atomOf, Window.Fullscreen),
                      UpdateRequests(atomOf, root, win, Window.Fullscreen, next)) ==
            Published(atomOf, next)
  {
    var fs := atomOf(NetWmStateFullscreen);
    assert RemoveId(RemoveId([fs], fs), 0) == [];
    HonourOne(atomOf, win, Published(atomOf, Window.Fullscreen),
              UndoRequests(atomOf, root, win, Window.Fullscreen)[0]);
    var undone := HonourAll(atomOf, win, Published(atomOf, Window.Fullscreen),
                            UndoRequests(atomOf, root, win, Window.Fullscreen));
    assert undone == Published(atomOf, Window.Normal);
    assert UpdateRequests(atomOf, root, win, Window.Fullscreen, next) ==
      UndoRequests(atomOf, root, win, Window.Fullscreen) + (ApplyRequests(atomOf, root, win, next) + [Flush]);
    HonourAllAppend(atomOf, win, Published(atomOf, Window.Fullscreen),
                    UndoRequests(atomOf, root, win, Window.Fullscreen),
                    ApplyRequests(atomOf, root, win, next) + [Flush]);
    ApplyFromNormal(atomOf, root, win, next);
  }

  /** Leaving a minimized or hidden state (mapping the window), for every next state. */
  lemma UpdateFromUnmapped(atomOf: Atom -> nat, root: nat, win: nat, prior: Window.State,
                           next: Window.State)
    requires Interned(atomOf)
    requires (prior == Window.Minimized || prior == Window.Hidden) && next != prior
    ensures HonourAll(atomOf, win, Published(atomOf, prior),
                      UpdateRequests(atomOf, root, win, prior, next)) ==
            Published(atomOf, next)
  {
    HonourOne(atomOf, win, Published(atomOf, prior), MapWindow(win));
    var undone := HonourAll(atomOf, win, Published(atomOf, prior),
                            UndoRequests(atomOf, root, win, prior));
    assert undone == Published(atomOf, Window.Normal);
    assert UpdateRequests(atomOf, root, win, prior, next) ==
      UndoRequests(atomOf, root, win, prior) + (ApplyRequests(atomOf, root, win, next) + [Flush]);
    HonourAllAppend(atomOf, win, Published(atomOf, prior), UndoRequests(atomOf, root, win, prior),
                    ApplyRequests(atomOf, root, win, next) + [Flush]);
    ApplyFromNormal(atomOf, root, win, next);
  }

  /** From the normal state, the apply requests and the flush lead to `next`. */
  lemma ApplyFromNormal(atomOf: Atom -> nat, root: nat, win: nat, next: Window.State)
    requires Interned(atomOf)
    ensures HonourAll(atomOf, win, Published(atomOf, Window.Normal),
                      ApplyRequests(atomOf, root, win, next) + [Flush]) ==
            Published(atomOf, next)
  {
    var v := Published(atomOf, Window.Normal);
    assert atomOf(NetWmState) != atomOf(WmChangeState);
    if next == Window.Normal {
      HonourOne(atomOf, win, v, Flush);
    } else {
      var r := ApplyRequests(atomOf, root, win, next)[0];
      assert ApplyRequests(atomOf, root, win, next) + [Flush] == [r, Flush];
      HonourTwo(atomOf, win, v, r, Flush);
      if next == Window.Maximized {
        assert AddId(AddId([], atomOf(NetWmStateMaximizedHorz)), atomOf(NetWmStateMaximizedVert)) ==
          [atomOf(NetWmStateMaximizedHorz), atomOf(NetWmStateMaximizedVert)];
      }
    }
  }

  /** Honouring one request: the step `UpdateFromMaximized` and its siblings use to follow
      `update_state`'s requests through the reference window manager. */
  lemma HonourOne(atomOf: Atom -> nat, win: nat, v: WmView, r: Request)
    ensures HonourAll(atomOf, win, v, [r]) == Honour(atomOf, win, v, r)
  {
    assert [r][1..] == [];
  }

  /** Honouring two requests, used where `update_state` sends a request and a flush. */
  lemma HonourTwo(atomOf: Atom -> nat, win: nat, v: WmView, r1: Request, r2: Request)
    ensures HonourAll(atomOf, win, v, [r1, r2]) == Honour(atomOf, win, Honour(atomOf, win, v, r1), r2)
  {
    assert [r1, r2][1..] == [r2];
    HonourOne(atomOf, win, Honour(atomOf, win, v, r1), r2);
  }

  /** Honouring two batches is honouring their concatenation; it splits `update_state`'s
      requests into the undo part and the apply part for `UpdateHonoured`. */
  lemma {:induction false} HonourAllAppend(atomOf: Atom -> nat, win: nat, v: WmView,
                                           xs: seq<Request>, ys: seq<Request>)
    ensures HonourAll(atomOf, win, v, xs + ys) ==
            HonourAll(atomOf, win, HonourAll(atomOf, win, v, xs), ys)
    decreases |xs|
  {
    if xs != [] {
      assert (xs + ys)[0] == xs[0];
      assert (xs + ys)[1..] == xs[1..] + ys;
      HonourAllAppend(atomOf, win, Honour(atomOf, win, v, xs[0]), xs[1..], ys);
    } else {
      assert xs + ys == ys;
    }
  }

  /** The requests `update_state` sends to go from `prior` to another state `next` take a
      window that a window manager shows in state `prior` to one it shows in state `next`,
      and `get_state_sys` then reads back `next`. */
  lemma UpdateHonoured(atomOf: Atom -> nat, root: nat, win: nat, prior: Window.State,
                       next: Window.State)
    requires Interned(atomOf) && prior != next
    ensures HonourAll(atomOf, win, Published(atomOf, prior),
                      UpdateRequests(atomOf, root, win, prior, next)) ==
            Published(atomOf, next)
    ensures Classify(atomOf, HonourAll(atomOf, win, Published(atomOf, prior),
                                       UpdateRequests(atomOf, root, win, prior, next))) == next
  {
    StateReadsBack(atomOf, next);
    match prior
    case Maximized => UpdateFromMaximized(atomOf, root, win, next);
    case Fullscreen => UpdateFromFullscreen(atomOf, root, win, next);
    case Minimized => UpdateFromUnmapped(atomOf, root, win, prior, next);
    case Hidden => UpdateFromUnmapped(atomOf, root, win, prior, next);
    case Normal => ApplyFromNormal(atomOf, root, win, next);
  }

  /** `update_state` as written never records the state it asked for, so a created window
      keeps `Hidden` as its last known state and every later update starts from there. A
      window created maximized and then asked to be normal is only mapped again: the window
      manager keeps it maximized. A window shown normal and then asked to hide sends nothing
      at all, since the requested state equals the stale one, and stays shown. */
  lemma UpdateAsWrittenKeepsStaleState(atomOf: Atom -> nat, root: nat, win: nat)
    requires Interned(atomOf)
    ensures var maximized := HonourAll(atomOf, win, Published(atomOf, Window.Hidden),
                                       UpdateSent(atomOf, root, win, true, Window.Hidden, Window.Maximized));
      Classify(atomOf, HonourAll(atomOf, win, maximized,
                                 UpdateSent(atomOf, root, win, true, Window.Hidden, Window.Normal))) ==
      Window.Maximized
    ensures UpdateSent(atomOf, root, win, true, Window.Hidden, Window.Hidden) == []
    ensures var shown := HonourAll(atomOf, win, Published(atomOf, Window.Hidden),
                                   UpdateSent(atomOf, root, win, true, Window.Hidden, Window.Normal));
      Classify(atomOf, HonourAll(atomOf, win, shown,
                                 UpdateSent(atomOf, root, win, true, Window.Hidden, Window.Hidden))) ==
      Window.Normal
  {
    UpdateHonoured(atomOf, root, win, Window.Hidden, Window.Maximized);
    UpdateHonoured(atomOf, root, win, Window.Hidden, Window.Normal);
    assert UpdateRequests(atomOf, root, win, Window.Hidden, Window.Normal) == [MapWindow(win), Flush];
    HonourTwo(atomOf, win, Published(atomOf, Window.Maximized), MapWindow(win), Flush);
    MaximizedReadsBack(atomOf);
  }

  /** With the state recorded, the same two sequences end where they were asked to: the
      maximized window comes back to normal and the shown window hides. */
  lemma UpdateRecordingState(atomOf: Atom -> nat, root: nat, win: nat)
    requires Interned(atomOf)
    ensures var maximized := HonourAll(atomOf, win, Published(atomOf, Window.Hidden),
                                       UpdateSent(atomOf, root, win, true, Window.Hidden, Window.Maximized));
      Classify(atomOf, HonourAll(atomOf, win, maximized,
                                 UpdateSent(atomOf, root, win, true, Window.Maximized, Window.Normal))) ==
      Window.Normal
    ensures var shown := HonourAll(atomOf, win, Published(atomOf, Window.Hidden),
                                   UpdateSent(atomOf, root, win, true, Window.Hidden, Window.Normal));
      Classify(atomOf, HonourAll(atomOf, win, shown,
                                 UpdateSent(atomOf, root, win, true, Window.Normal, Window.Hidden))) ==
      Window.Hidden
  {
    UpdateHonoured(atomOf, root, win, Window.Hidden, Window.Maximized);
    UpdateHonoured(atomOf, root, win, Window.Maximized, Window.Normal);
    UpdateHonoured(atomOf, root, win, Window.Hidden, Window.Normal);
    UpdateHonoured(atomOf, root, win, Window.Normal, Window.Hidden);
  }

  /** Rust's `i32` division, which truncates toward zero. */
  function Div(a: int, b: int): int
    requires b > 0
  {
    if a >= 0 then a / b else -((-a) / b)
  }

  /** The centred position `create` gives a 640×480 window on a screen of the given size. */
  function CreatePosition(screenWidth: int, screenHeight: int): (p: Geometry.Point)
    ensures screenWidth >= CREATE_WIDTH ==>
      0 <= p.x && 2 * p.x <= screenWidth - CREATE_WIDTH < 2 * p.x + 2
    ensures screenHeight >= CREATE_HEIGHT ==>
      0 <= p.y && 2 * p.y <= screenHeight - CREATE_HEIGHT < 2 * p.y + 2
    ensures screenWidth < CREATE_WIDTH ==>
      p.x <= 0 && 2 * p.x - 1 <= screenWidth - CREATE_WIDTH <= 2 * p.x
    ensures screenHeight < CREATE_HEIGHT ==>
      p.y <= 0 && 2 * p.y - 1 <= screenHeight - CREATE_HEIGHT <= 2 * p.y
  {
    Geometry.Point(Div(screenWidth - CREATE_WIDTH, 2), Div(screenHeight - CREATE_HEIGHT, 2))
  }

  // ---------------------------------------------------------------------------------------
  // The connection's shared state and the windows

  /** A notification fired to a window's handlers. */
  datatype Notification =
    | OnMove(pos: Geometry.Point)
    | OnResize(size: Geometry.Size)
    | OnShow
    | OnHide

  /** `XcbSharedState`: the interned atoms, the default screen, the registry of created
      windows keyed by their X id, and the requests sent so far. */
  class XcbShared {
    const atomOf: Atom -> nat
    const root: nat
    const screenWidth: int
    const screenHeight: int
    var windows: map<nat, XcbWindow>
    var requests: seq<Request>

    constructor (atomOf: Atom -> nat, root: nat, screenWidth: int, screenHeight: int)
      ensures this.atomOf == atomOf && this.root == root
      ensures this.screenWidth == screenWidth && this.screenHeight == screenHeight
      ensures windows == map[] && requests == []
    {
      this.atomOf := atomOf;
      this.root := root;
      this.screenWidth := screenWidth;
      this.screenHeight := screenHeight;
      windows := map[];
      requests := [];
    }

    /** Every registered window belongs to this connection, is created, and is registered
        under its own id. */
    predicate Valid()
      reads this, windows.Values
    {
      forall id | id in windows ::
        id != 0 && windows[id].shared == this && windows[id].created && windows[id].xcbWin == id
    }
  }

  /** `XcbWindow`: its X id (0 when not created), its rectangle, the state it last asked for,
      whether it is created, and, from its `WindowBase`, the requested state and title and
      the close handler. `fired` logs the notifications its handlers received. */
  class XcbWindow {
    const shared: XcbShared
    var xcbWin: nat
    var rect: Geometry.Rect
    var lastKnownState: Window.State
    var created: bool
    var baseState: Window.State
    var baseTitle: string
    var onClose: Option<() -> bool>
    var fired: seq<Notification>

    /** A created window is registered under its non-zero id; a window not created has
        id 0 and is not registered. */
    predicate Valid()
      reads this, shared, shared.windows.Values
    {
      shared.Valid() &&
      (created ==> xcbWin != 0 && xcbWin in shared.windows && shared.windows[xcbWin] == this) &&
      (!created ==> xcbWin == 0 && this !in shared.windows.Values)
    }

    /** `XcbWindow::new(base, shared)`. */
    constructor (shared: XcbShared, baseState: Window.State, baseTitle: string)
      requires shared.Valid()
      ensures Valid()
      ensures this.shared == shared && xcbWin == 0 && !created
      ensures rect == Geometry.Rect(0, 0, 0, 0) && lastKnownState == Window.Hidden
      ensures this.baseState == baseState && this.baseTitle == baseTitle
      ensures onClose == None && fired == []
    {
      this.shared := shared;
      xcbWin := 0;
      rect := Geometry.Rect(0, 0, 0, 0);
      lastKnownState := Window.Hidden;
      created := false;
      this.baseState := baseState;
      this.baseTitle := baseTitle;
      onClose := None;
      fired := [];
    }

    /** `update_title`: sets the window's name and icon name to the base's title, if the
        window is created. */
    method UpdateTitle()
      modifies shared
      ensures shared.windows == old(shared.windows)
      ensures shared.requests == old(shared.requests) +
        (if created then TitleRequests(xcbWin, baseTitle) else [])
    {
      if created {
        shared.requests := shared.requests + TitleRequests(xcbWin, baseTitle);
      }
    }

    /** `update_state` as written: does nothing unless the window is created and the base's
        state differs from `lastKnownState`, otherwise undoes `lastKnownState` and applies
        the base's state, but never records it. */
    method UpdateStateAsWritten()
      modifies shared
      ensures shared.windows == old(shared.windows)
      ensures lastKnownState == old(lastKnownState)
      ensures shared.requests == old(shared.requests) +
        UpdateSent(shared.atomOf, shared.root, xcbWin, created, lastKnownState, baseState)
    {
      if !created {
        return;
      }
      var newState := baseState;
      var oldState := lastKnownState;
      if newState == oldState {
        return;
      }
      shared.requests := shared.requests +
        UndoRequests(shared.atomOf, shared.root, xcbWin, oldState) +
        ApplyRequests(shared.atomOf, shared.root, xcbWin, newState) + [Flush];
    }

    /** `update_state` as intended: the same requests, and the state asked for is recorded as
        `lastKnownState`, so that the next change undoes it. */
    method UpdateState()
      modifies this, shared
      ensures shared.windows == old(shared.windows)
      ensures xcbWin == old(xcbWin) && created == old(created) && rect == old(rect)
      ensures baseState == old(baseState) && baseTitle == old(baseTitle)
      ensures onClose == old(onClose) && fired == old(fired)
      ensures lastKnownState == if created then baseState else old(lastKnownState)
      ensures shared.requests == old(shared.requests) +
        UpdateSent(shared.atomOf, shared.root, xcbWin, created, old(lastKnownState), baseState)
    {
      if !created {
        return;
      }
      var newState := baseState;
      var oldState := lastKnownState;
      if newState == oldState {
        return;
      }
      shared.requests := shared.requests +
        UndoRequests(shared.atomOf, shared.root, xcbWin, oldState) +
        ApplyRequests(shared.atomOf, shared.root, xcbWin, newState) + [Flush];
      lastKnownState := newState;
    }

    /** `create`: does nothing for a created window. Otherwise creates a 640×480 window
        centred on the default screen under the fresh id `newId`, subscribes to
        `WM_DELETE_WINDOW`, registers the window, then sends its title and its state through
        `update_state` as written, so `lastKnownState` stays `Hidden` whatever state was
        asked for. */
    method Create(newId: nat)
      requires Valid() && newId != 0 && newId !in shared.windows
      modifies this, shared
      ensures Valid()
      ensures old(created) ==> unchanged(this) && unchanged(shared)
      ensures !old(created) ==>
        created && xcbWin == newId && shared.windows == old(shared.windows)[newId := this] &&
        rect == Geometry.NewRectPs(CreatePosition(shared.screenWidth, shared.screenHeight),
                                   Geometry.Size(CREATE_WIDTH, CREATE_HEIGHT)) &&
        lastKnownState == Window.Hidden &&
        shared.requests == old(shared.requests) +
          [CreateWindow(newId, shared.root, rect.x, rect.y, CREATE_WIDTH, CREATE_HEIGHT),
           ChangeAtomProperty(newId, shared.atomOf(WmProtocols), [shared.atomOf(WmDeleteWindow)])] +
          TitleRequests(newId, baseTitle) +
          (if baseState != Window.Hidden
           then UpdateRequests(shared.atomOf, shared.root, newId, Window.Hidden, baseState)
           else [])
    {
      if created {
        return;
      }
      var s := Geometry.NewSize(CREATE_WIDTH, CREATE_HEIGHT);
      var p := CreatePosition(shared.screenWidth, shared.screenHeight);
      shared.requests := shared.requests +
        [CreateWindow(newId, shared.root, p.x, p.y, s.w, s.h),
         ChangeAtomProperty(newId, shared.atomOf(WmProtocols), [shared.atomOf(WmDeleteWindow)])];
      lastKnownState := Window.Hidden;
      rect := Geometry.NewRectPs(p, s);
      xcbWin := newId;
      shared.windows := shared.windows[newId := this];
      created := true;
      UpdateTitle();
      UpdateStateAsWritten();
    }

    /** `create` as intended: does nothing for a created window. Otherwise creates a 640×480 window
        centred on the default screen under the fresh id `newId`, subscribes to
        `WM_DELETE_WINDOW`, registers the window, then sends its title and its state through
        the corrected `update_state`, which records the state asked for. */
    method CreateRecordingState(newId: nat)
      requires Valid() && newId != 0 && newId !in shared.windows
      modifies this, shared
      ensures Valid()
      ensures old(created) ==> unchanged(this) && unchanged(shared)
      ensures !old(created) ==>
        created && xcbWin == newId && shared.windows == old(shared.windows)[newId := this] &&
        rect == Geometry.NewRectPs(CreatePosition(shared.screenWidth, shared.screenHeight),
                                   Geometry.Size(CREATE_WIDTH, CREATE_HEIGHT)) &&
        lastKnownState == baseState &&
        shared.requests == old(shared.requests) +
          [CreateWindow(newId, shared.root, rect.x, rect.y, CREATE_WIDTH, CREATE_HEIGHT),
           ChangeAtomProperty(newId, shared.atomOf(WmProtocols), [shared.atomOf(WmDeleteWindow)])] +
          TitleRequests(newId, baseTitle) +
          (if baseState != Window.Hidden
           then UpdateRequests(shared.atomOf, shared.root, newId, Window.Hidden, baseState)
           else [])
    {
      if created {
        return;
      }
      var s := Geometry.NewSize(CREATE_WIDTH, CREATE_HEIGHT);
      var p := CreatePosition(shared.screenWidth, shared.screenHeight);
      shared.requests := shared.requests +
        [CreateWindow(newId, shared.root, p.x, p.y, s.w, s.h),
         ChangeAtomProperty(newId, shared.atomOf(WmProtocols), [shared.atomOf(WmDeleteWindow)])];
      lastKnownState := Window.Hidden;
      rect := Geometry.NewRectPs(p, s);
      xcbWin := newId;
      shared.windows := shared.windows[newId := this];
      created := true;
      UpdateTitle();
      UpdateState();
    }

    /** `close`: does nothing for a window not created. Otherwise unmaps it unless it was
        last asked to be hidden, destroys it, unregisters it and forgets its id. */
    method Close()
      requires Valid()
      modifies this, shared
      ensures Valid()
      ensures !created && xcbWin == 0
      ensures !old(created) ==> unchanged(shared)
      ensures old(created) ==>
        shared.windows == old(shared.windows) - {old(xcbWin)} &&
        shared.requests == old(shared.requests) +
          (if old(lastKnownState) != Window.Hidden then [UnmapWindow(old(xcbWin))] else []) +
          [DestroyWindow(old(xcbWin)), Flush]
      ensures rect == old(rect) && lastKnownState == old(lastKnownState)
      ensures baseState == old(baseState) && onClose == old(onClose) && fired == old(fired)
    {
      if created {
        var win := xcbWin;
        if lastKnownState != Window.Hidden {
          shared.requests := shared.requests + [UnmapWindow(win)];
        }
        shared.requests := shared.requests + [DestroyWindow(win)];
        created := false;
        shared.windows := shared.windows - {win};
        xcbWin := 0;
        shared.requests := shared.requests + [Flush];
        forall id | id in shared.windows
          ensures shared.windows[id] != this
        {
          assert old(shared.windows)[id].xcbWin == id;
        }
      }
    }

    /** `handle_configure_notify`: the position is the one the server translates, or the
        event's when that request fails. Fires the move handlers when the position changed
        and the resize handlers when the size changed, then records both. */
    method HandleConfigureNotify(ev: ConfigureNotify, serverPos: Option<Geometry.Point>)
      requires created
      modifies this
      ensures var newPos := serverPos.UnwrapOr(Geometry.Point(ev.x, ev.y));
        var newSize := Geometry.Size(ev.width, ev.height);
        fired == old(fired) +
          (if newPos != Geometry.RectPoint(old(rect)) then [OnMove(newPos)] else []) +
          (if newSize != Geometry.RectSize(old(rect)) then [OnResize(newSize)] else []) &&
        Geometry.RectPoint(rect) == newPos && Geometry.RectSize(rect) == newSize
      ensures xcbWin == old(xcbWin) && created == old(created)
      ensures lastKnownState == old(lastKnownState) && onClose == old(onClose)
    {
      var oldR := rect;
      var newPos := serverPos.UnwrapOr(Geometry.Point(ev.x, ev.y));
      if newPos != Geometry.RectPoint(oldR) {
        fired := fired + [OnMove(newPos)];
      }
      var newSize := Geometry.NewSize(ev.width, ev.height);
      if newSize != Geometry.RectSize(oldR) {
        fired := fired + [OnResize(newSize)];
      }
      rect := Geometry.NewRectPs(newPos, newSize);
    }

    /** `get_wm_states`: decodes the `_NET_WM_STATE` reply id by id, ORing in the flag of
        each state atom it recognises (`StateFlag` is the loop body's if-chain). */
    method GetWmStates(reply: Option<PropertyReply>) returns (res: bv32)
      requires created
      ensures res == NetStates(shared.atomOf, reply)
    {
      res := NET_WM_STATE_NONE;
      if reply.Some? && reply.value.format == 32 && reply.value.type_ == ATOM_ATOM {
        var vals := reply.value.value;
        var i := 0;
        while i < |vals|
          invariant 0 <= i <= |vals|
          invariant res == WmStates(shared.atomOf, vals[..i])
        {
          WmStatesSnoc(shared.atomOf, vals, i);
          res := res | StateFlag(shared.atomOf, vals[i]);
          i := i + 1;
        }
        assert vals[..i] == vals;
      }
    }

    /** `get_state_sys`: the state the window manager reports, from the `WM_STATE` reply and
        the `_NET_WM_STATE` reply. */
    method GetStateSys(wmStateReply: Option<PropertyReply>, netReply: Option<PropertyReply>)
      returns (s: Window.State)
      ensures s == StateSys(created, WmStateValue(shared.atomOf(WmState), wmStateReply),
                            NetStates(shared.atomOf, netReply))
    {
      if !created {
        return Window.Hidden;
      }
      var wmStateAtom := shared.atomOf(WmState);
      if wmStateReply.Some? {
        var reply := wmStateReply.value;
        if reply.format == 32 && reply.type_ == wmStateAtom {
          var value := reply.value;
          if |value| > 0 {
            if value[0] == XCB_ICCCM_WM_STATE_WITHDRAWN {
              return Window.Hidden;
            } else if value[0] == XCB_ICCCM_WM_STATE_ICONIC {
              return Window.Minimized;
            }
          }
        }
      }
      var states := GetWmStates(netReply);
      if states & NET_WM_STATE_FULLSCREEN != 0 {
        s := Window.Fullscreen;
      } else if states & NET_WM_STATE_MAXIMIZED == NET_WM_STATE_MAXIMIZED {
        s := Window.Maximized;
      } else {
        s := Window.Normal;
      }
    }
  }

  /** A `ConfigureNotify` event's geometry. */
  datatype ConfigureNotify = ConfigureNotify(window: nat, x: int, y: int, width: int, height: int)

  /** A `ClientMessage` event: its window, type, format and first 32-bit datum. */
  datatype ClientMessage = ClientMessage(window: nat, type_: nat, format: nat, data0: nat)

  // event codes of the core protocol
  const UNMAP_NOTIFY: bv8 := 18
  const MAP_NOTIFY: bv8 := 19
  const CONFIGURE_NOTIFY: bv8 := 22
  const CLIENT_MESSAGE: bv8 := 33

  /** An event the server delivers. `sent` is set on events another client sent with
      `SendEvent`; a configure notification carries the position the server would report
      when asked to translate the window's origin. */
  datatype XEvent =
    | ClientMessageEvent(sent: bool, cm: ClientMessage)
    | ConfigureNotifyEvent(sent: bool, cn: ConfigureNotify, serverPos: Option<Geometry.Point>)
    | MapNotifyEvent(sent: bool, mapped: nat)
    | UnmapNotifyEvent(sent: bool, unmapped: nat)
    | OtherEvent(responseType: bv8)

  /** An event the loop does not handle has none of the four handled codes. */
  predicate WellFormed(ev: XEvent)
  {
    ev.OtherEvent? ==>
      var r := ev.responseType & 0x7F;
      r != CLIENT_MESSAGE && r != CONFIGURE_NOTIFY && r != MAP_NOTIFY && r != UNMAP_NOTIFY
  }

  /** The event's code with the sent-event bit (0x80) set for a sent event. */
  function ResponseType(ev: XEvent): bv8
  {
    var sentBit: bv8 := if !ev.OtherEvent? && ev.sent then 0x80 else 0;
    match ev
    case ClientMessageEvent(_, _) => CLIENT_MESSAGE | sentBit
    case ConfigureNotifyEvent(_, _, _) => CONFIGURE_NOTIFY | sentBit
    case MapNotifyEvent(_, _) => MAP_NOTIFY | sentBit
    case UnmapNotifyEvent(_, _) => UNMAP_NOTIFY | sentBit
    case OtherEvent(r) => r
  }

  /** Masking off the sent-event bit recovers the code, so a sent event is dispatched like
      one the server generated, and each handled code picks out its kind of event. */
  lemma ResponseCode(ev: XEvent)
    requires WellFormed(ev)
    ensures var r := ResponseType(ev) & 0x7F;
      (r == CLIENT_MESSAGE <==> ev.ClientMessageEvent?) &&
      (r == CONFIGURE_NOTIFY <==> ev.ConfigureNotifyEvent?) &&
      (r == MAP_NOTIFY <==> ev.MapNotifyEvent?) &&
      (r == UNMAP_NOTIFY <==> ev.UnmapNotifyEvent?)
  {
  }

  /** The message is `WM_PROTOCOLS` with format 32 carrying `WM_DELETE_WINDOW`. */
  predicate IsDeleteRequest(atomOf: Atom -> nat, cm: ClientMessage)
  {
    cm.type_ == atomOf(WmProtocols) && cm.format == 32 && cm.data0 == atomOf(WmDeleteWindow)
  }

  /** What a window's close handler answers; `true` when it has none. */
  function CloseAnswer(w: XcbWindow): bool
    reads w
  {
    match w.onClose
    case Some(f) => f()
    case None => true
  }

  /** Entries of a map that agree with another map's have their values among its values. */
  lemma SubmapValues<K, V>(m: map<K, V>, big: map<K, V>)
    requires forall k | k in m :: k in big && m[k] == big[k]
    ensures m.Values <= big.Values
  {
    forall v | v in m.Values
      ensures v in big.Values
    {
      var k :| k in m && m[k] == v;
      assert big[k] == v;
    }
  }

  /** `XcbPlatform`: the connection's shared state and the exit code. */
  class XcbPlatform {
    const shared: XcbShared
    var exitCode: Option<int>

    constructor (shared: XcbShared)
      ensures this.shared == shared && exitCode == None
    {
      this.shared := shared;
      exitCode := None;
    }

    predicate Valid()
      reads this, shared, shared.windows.Values
    {
      shared.Valid()
    }

    /** `window(id)`: the registered window of that id, if any. */
    function WindowOf(id: nat): (r: Option<XcbWindow>)
      reads this, shared, shared.windows.Values
      requires Valid()
      ensures r.Some? <==> id in shared.windows
      ensures r.Some? ==> r.value.created && r.value.xcbWin == id
    {
      if id in shared.windows then Some(shared.windows[id]) else None
    }

    /** `exit(code)`. */
    method Exit(code: int)
      modifies this
      ensures exitCode == Some(code)
    {
      exitCode := Some(code);
    }

    /** `handle_configure_notify`: forwards the notification to the registered window of
        that id, if any. */
    method HandleConfigureNotify(cn: ConfigureNotify, serverPos: Option<Geometry.Point>)
      requires Valid()
      modifies shared.windows.Values
      ensures Valid()
      ensures cn.window in shared.windows ==>
        var w := shared.windows[cn.window];
        var newPos := serverPos.UnwrapOr(Geometry.Point(cn.x, cn.y));
        var newSize := Geometry.Size(cn.width, cn.height);
        w.fired == old(w.fired) +
          (if newPos != Geometry.RectPoint(old(w.rect)) then [OnMove(newPos)] else []) +
          (if newSize != Geometry.RectSize(old(w.rect)) then [OnResize(newSize)] else []) &&
        w.rect == Geometry.NewRectPs(newPos, newSize)
      ensures cn.window !in shared.windows ==> forall w | w in shared.windows.Values :: unchanged(w)
      ensures forall id | id in shared.windows && id != cn.window :: unchanged(shared.windows[id])
    {
      var pw := WindowOf(cn.window);
      if pw.Some? {
        pw.value.HandleConfigureNotify(cn, serverPos);
      }
    }

    /** `handle_map_notify`: fires the show handlers of the registered window of that id,
        if any. */
    method HandleMapNotify(win: nat)
      requires Valid()
      modifies shared.windows.Values
      ensures Valid()
      ensures win in shared.windows ==>
        shared.windows[win].fired == old(shared.windows[win].fired) + [OnShow]
      ensures forall id | id in shared.windows && id != win :: unchanged(shared.windows[id])
    {
      var pw := WindowOf(win);
      if pw.Some? {
        pw.value.fired := pw.value.fired + [OnShow];
      }
    }

    /** `handle_unmap_notify`: fires the hide handlers of the registered window of that id,
        if any. */
    method HandleUnmapNotify(win: nat)
      requires Valid()
      modifies shared.windows.Values
      ensures Valid()
      ensures win in shared.windows ==>
        shared.windows[win].fired == old(shared.windows[win].fired) + [OnHide]
      ensures forall id | id in shared.windows && id != win :: unchanged(shared.windows[id])
    {
      var pw := WindowOf(win);
      if pw.Some? {
        pw.value.fired := pw.value.fired + [OnHide];
      }
    }

    /** `handle_client_message`: a `WM_DELETE_WINDOW` request for a registered window whose
        close handler agrees closes it; when that leaves no window and no exit code was set,
        the exit code becomes 0. Anything else changes nothing. */
    method HandleClientMessage(cm: ClientMessage)
      requires Valid()
      modifies this, shared, shared.windows.Values
      ensures Valid()
      ensures var closes := IsDeleteRequest(shared.atomOf, cm) && cm.window in old(shared.windows) &&
                            old(CloseAnswer(shared.windows[cm.window]));
        (closes ==>
          shared.windows == old(shared.windows) - {cm.window} &&
          exitCode == (if shared.windows == map[] && old(exitCode).None? then Some(0) else old(exitCode))) &&
        (!closes ==>
          shared.windows == old(shared.windows) && exitCode == old(exitCode) &&
          shared.requests == old(shared.requests))
      ensures var closes := IsDeleteRequest(shared.atomOf, cm) && cm.window in old(shared.windows) &&
                            old(CloseAnswer(shared.windows[cm.window]));
        closes ==>
          var w := old(shared.windows[cm.window]);
          !w.created && w.xcbWin == 0 &&
          shared.requests == old(shared.requests) +
            (if old(w.lastKnownState) != Window.Hidden then [UnmapWindow(cm.window)] else []) +
            [DestroyWindow(cm.window), Flush]
    {
      if cm.type_ == shared.atomOf(WmProtocols) && cm.format == 32 {
        if cm.data0 == shared.atomOf(WmDeleteWindow) {
          var pw := WindowOf(cm.window);
          if pw.Some? {
            var w := pw.value;
            var close := true;
            if w.onClose.Some? {
              close := w.onClose.value();
            }
            if close {
              w.Close();
              if shared.windows == map[] && exitCode.None? {
                exitCode := Some(0);
              }
            }
          }
        }
      }
    }

    /** One turn of the loop of `loop_events`: dispatches the event on its code with the
        sent-event bit masked off. Only a close can shrink the registry, and the exit code,
        once set, stays; it is set here only to 0, when the last window has closed. */
    method HandleEvent(ev: XEvent)
      requires Valid() && WellFormed(ev)
      modifies this, shared, shared.windows.Values
      ensures Valid()
      ensures forall id | id in shared.windows ::
        id in old(shared.windows) && shared.windows[id] == old(shared.windows[id])
      ensures old(exitCode).Some? ==> exitCode == old(exitCode)
      ensures old(exitCode).None? && exitCode.Some? ==> exitCode == Some(0) && shared.windows == map[]
    {
      var r := ResponseType(ev) & 0x7F;
      ResponseCode(ev);
      if r == CLIENT_MESSAGE {
        HandleClientMessage(ev.cm);
      } else if r == CONFIGURE_NOTIFY {
        HandleConfigureNotify(ev.cn, ev.serverPos);
      } else if r == MAP_NOTIFY {
        HandleMapNotify(ev.mapped);
      } else if r == UNMAP_NOTIFY {
        HandleUnmapNotify(ev.unmapped);
      }
    }

    /** `loop_events`: waits for events (`events` is what the connection delivers, up to its
        end or failure) and handles each, stopping after the first one that leaves an exit
        code set. It handles at least one event when there is one, even if an exit code was
        already set, and returns the exit code, or `None` when the connection ran out first
        (where the source panics). `processed` is the number of events handled. */
    method LoopEvents(events: seq<XEvent>) returns (code: Option<int>, processed: nat)
      requires Valid() && forall i | 0 <= i < |events| :: WellFormed(events[i])
      modifies this, shared, shared.windows.Values
      ensures Valid()
      ensures code == exitCode && processed <= |events|
      ensures processed < |events| ==> code.Some?
      ensures |events| > 0 ==> processed > 0
      ensures old(exitCode).Some? ==> code == old(exitCode) && processed == if |events| > 0 then 1 else 0
      ensures old(exitCode).None? && code.Some? ==> code == Some(0) && shared.windows == map[]
      ensures forall id | id in shared.windows :: id in old(shared.windows)
    {
      var i := 0;
      while i < |events|
        invariant 0 <= i <= |events|
        invariant Valid()
        invariant i > 0 ==> exitCode.None?
        invariant i == 0 ==> exitCode == old(exitCode)
        invariant old(exitCode).Some? ==> i == 0
        invariant forall id | id in shared.windows ::
          id in old(shared.windows) && shared.windows[id] == old(shared.windows[id])
      {
        SubmapValues(shared.windows, old(shared.windows));
        HandleEvent(events[i]);
        i := i + 1;
        if exitCode.Some? {
          break;
        }
      }
      code := exitCode;
      processed := i;
    }
  }
}
