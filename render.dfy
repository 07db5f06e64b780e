/** The render thread's bookkeeping (src/render/mod.rs): the preference searches for a
    swapchain's composite alpha and format, the image-count rule, the renderer's list of
    windows with their `must_rebuild` flag, and the message loop. The GPU is abstracted:
    what the surface supports is a parameter, and so is the outcome of acquiring and
    presenting an image. */
module Render {
  import opened Common

  // ---------------------------------------------------------------------------------------
  // Swapchain configuration

  /** `hal::CompositeAlpha`. */
  datatype CompositeAlpha = Opaque | PreMultiplied | PostMultiplied | Inherit

  /** `COMPALPHA_ORDER`: the composite alpha modes by decreasing preference. */
  const COMPALPHA_ORDER: seq<CompositeAlpha> := [PreMultiplied, PostMultiplied, Inherit, Opaque]

  /** `find_surf_comp_alpha`: the most preferred mode the surface supports. The source
      panics when it supports none of them. */
  method FindSurfCompAlpha(compat: seq<CompositeAlpha>) returns (ca: CompositeAlpha)
    requires exists k | 0 <= k < |COMPALPHA_ORDER| :: COMPALPHA_ORDER[k] in compat
    ensures ca in compat
    ensures exists k | 0 <= k < |COMPALPHA_ORDER| ::
      (COMPALPHA_ORDER[k] == ca && forall j | 0 <= j < k :: COMPALPHA_ORDER[j] !in compat)
  {
    var k := 0;
    while k < |COMPALPHA_ORDER|
      invariant 0 <= k <= |COMPALPHA_ORDER|
      invariant forall j | 0 <= j < k :: COMPALPHA_ORDER[j] !in compat
    {
      var wish := COMPALPHA_ORDER[k];
      if wish in compat {
        return wish;
      }
      k := k + 1;
    }
    assert false;
  }

  /** `hal::format::Format`, of which only `Rgba8Unorm` is singled out. */
  datatype Format = Rgba8Unorm | OtherFormat(code: nat)

  /** The first element of `l` that satisfies `p`, if any. */
  function FindFirst(l: seq<Format>, p: Format -> bool): (r: Option<Format>)
    ensures r.Some? ==> r.value in l && p(r.value)
    ensures r.Some? ==> exists i | 0 <= i < |l| ::
      (l[i] == r.value && forall j | 0 <= j < i :: !p(l[j]))
    ensures r.None? ==> forall x | x in l :: !p(x)
  {
    if l == [] then None
    else if p(l[0]) then Some(l[0])
    else
      var r := FindFirst(l[1..], p);
      assert r.Some? ==> r.value in l;
      if r.Some? then
        var i :| 0 <= i < |l[1..]| && l[1..][i] == r.value && forall j | 0 <= j < i :: !p(l[1..][j]);
        assert l[i + 1] == r.value && forall j | 0 <= j < i + 1 :: !p(l[j]);
        r
      else r
  }

  /** `find_surf_format`: `Rgba8Unorm` when the surface has no preference; otherwise
      `Rgba8Unorm` if supported, else the first supported format whose channels are
      unsigned normalized (`isUnorm`), else the first supported format. The source indexes
      the list unconditionally, so a supported list must not be empty. */
  function FindSurfFormat(compat: Option<seq<Format>>, isUnorm: Format -> bool): (f: Format)
    requires compat.Some? ==> |compat.value| > 0
    ensures compat.None? ==> f == Rgba8Unorm
    ensures compat.Some? ==> f in compat.value
    ensures compat.Some? && Rgba8Unorm in compat.value ==> f == Rgba8Unorm
    ensures compat.Some? && Rgba8Unorm !in compat.value ==>
      (if exists x | x in compat.value :: isUnorm(x)
       then isUnorm(f) && exists i | 0 <= i < |compat.value| ::
              (compat.value[i] == f && forall j | 0 <= j < i :: !isUnorm(compat.value[j]))
       else f == compat.value[0])
  {
    match compat
    case None => Rgba8Unorm
    case Some(l) =>
      FindFirst(l, x => x == Rgba8Unorm).UnwrapOr(FindFirst(l, isUnorm).UnwrapOr(l[0]))
  }

  /** The image count `build_swapchain` asks for: at least two, and at least the surface's
      minimum. */
  function ImageCount(minImages: nat): (n: nat)
    ensures n >= 2 && n >= minImages
    ensures n == 2 || n == minImages
  {
    if 2 >= minImages then 2 else minImages
  }

  // ---------------------------------------------------------------------------------------
  // The renderer

  /** What happens to a frame on the GPU: the swapchain is out of date when acquiring an
      image, or an image is acquired and presenting it succeeds or not. */
  datatype FrameOutcome = OutOfDate | Acquired(presented: bool)

  /** A window the renderer draws to: its token and whether its swapchain must be rebuilt. */
  class RenderWindow {
    const token: nat
    var mustRebuild: bool

    /** `Window::new(info, renderer)`: a fresh swapchain that needs no rebuild. */
    constructor (token: nat)
      ensures this.token == token && !mustRebuild
    {
      this.token := token;
      mustRebuild := false;
    }
  }

  /** The tokens of the windows, in order. */
  function Tokens(ws: seq<RenderWindow>): (ts: seq<nat>)
    ensures |ts| == |ws|
    ensures forall i | 0 <= i < |ws| :: ts[i] == ws[i].token
  {
    if ws == [] then [] else Tokens(ws[..|ws| - 1]) + [ws[|ws| - 1].token]
  }

  /** `Renderer`: its windows, in the order they were opened. */
  class Renderer {
    var windows: seq<RenderWindow>

    /** `Renderer::new(instance, windows)`: a window per initial token, in order. */
    constructor (tokens: seq<nat>)
      ensures Valid() && Tokens(windows) == tokens
      ensures forall i | 0 <= i < |windows| :: fresh(windows[i]) && !windows[i].mustRebuild
    {
      var ws: seq<RenderWindow> := [];
      var i := 0;
      while i < |tokens|
        invariant 0 <= i <= |tokens| && |ws| == i
        invariant forall j | 0 <= j < i :: ws[j].token == tokens[j]
        invariant forall j | 0 <= j < i :: fresh(ws[j]) && !ws[j].mustRebuild
        invariant forall j, k | 0 <= j < k < i :: ws[j] != ws[k]
      {
        var w := new RenderWindow(tokens[i]);
        ws := ws + [w];
        i := i + 1;
      }
      windows := ws;
    }

    /** The windows are distinct objects. */
    predicate Valid()
      reads this
    {
      forall i, j | 0 <= i < j < |windows| :: windows[i] != windows[j]
    }

    /** `window_open`: appends one window for the token, needing no rebuild. */
    method WindowOpen(token: nat)
      requires Valid()
      modifies this
      ensures Valid()
      ensures |windows| == |old(windows)| + 1 && windows[..|old(windows)|] == old(windows)
      ensures fresh(windows[|old(windows)|])
      ensures windows[|old(windows)|].token == token && !windows[|old(windows)|].mustRebuild
    {
      var w := new RenderWindow(token);
      windows := windows + [w];
    }

    /** `window_close`: the source does nothing. */
    method WindowClose(token: nat)
      ensures windows == old(windows)
    {
    }

    /** `frame`: finds the first window with the frame's token (the source panics when there
        is none) and marks its swapchain for a rebuild when it is out of date or presenting
        fails. No other window changes. */
    method Frame(token: nat, outcome: FrameOutcome) returns (found: nat)
      requires Valid() && token in Tokens(windows)
      modifies set w | w in windows
      ensures windows == old(windows)
      ensures found < |windows| && windows[found].token == token
      ensures forall j | 0 <= j < found :: windows[j].token != token
      ensures windows[found].mustRebuild ==
        (old(windows[found].mustRebuild) || outcome == OutOfDate || outcome == Acquired(false))
      ensures forall j | 0 <= j < |windows| && j != found ::
        windows[j].mustRebuild == old(windows[j].mustRebuild)
    {
      var i := 0;
      while windows[i].token != token
        invariant 0 <= i < |windows|
        invariant forall j | 0 <= j < i :: windows[j].token != token
        invariant token in Tokens(windows)[i..]
        decreases |windows| - i
      {
        i := i + 1;
      }
      found := i;
      var w := windows[i];
      match outcome
      case OutOfDate =>
        w.mustRebuild := true;
      case Acquired(presented) =>
        if !presented {
          w.mustRebuild := true;
        }
    }
  }

  /** A message to the render thread. */
  datatype RenderMsg =
    | WindowOpenMsg(openToken: nat)
    | WindowCloseMsg(closeToken: nat)
    | FrameMsg(frameToken: nat, outcome: FrameOutcome)
    | FramesMsg
    | ExitMsg

  /** The position of the first `Exit` message, or the length when there is none. */
  function FirstExit(msgs: seq<RenderMsg>): (n: nat)
    ensures n <= |msgs|
    ensures n < |msgs| ==> msgs[n].ExitMsg?
    ensures forall i | 0 <= i < n :: !msgs[i].ExitMsg?
  {
    if msgs == [] then 0
    else if msgs[0].ExitMsg? then 0
    else 1 + FirstExit(msgs[1..])
  }

  /** The tokens of the windows the messages open, in order. */
  function Opened(msgs: seq<RenderMsg>): seq<nat>
  {
    if msgs == [] then []
    else
      var last := msgs[|msgs| - 1];
      Opened(msgs[..|msgs| - 1]) + (if last.WindowOpenMsg? then [last.openToken] else [])
  }

  /** Every frame message before the first `Exit` is for a window open by then. */
  predicate FramesKnown(initial: seq<nat>, msgs: seq<RenderMsg>)
  {
    forall i | 0 <= i < FirstExit(msgs) && msgs[i].FrameMsg? ::
      msgs[i].frameToken in initial + Opened(msgs[..i])
  }

  /** Some frame message among `msgs` for token `t` found the swapchain out of date or failed
      to present. */
  predicate Failed(msgs: seq<RenderMsg>, t: nat)
  {
    exists k | 0 <= k < |msgs| ::
      msgs[k].FrameMsg? && msgs[k].frameToken == t && msgs[k].outcome != Acquired(true)
  }

  /** Taking one more message keeps every failure seen so far, and adds that message's; it
      carries `RebuildsOnlyFailed` from one turn of `Handle` to the next. */
  lemma FailedGrows(msgs: seq<RenderMsg>, i: nat, t: nat)
    requires i < |msgs|
    ensures Failed(msgs[..i], t) ==> Failed(msgs[..i + 1], t)
    ensures msgs[i].FrameMsg? && msgs[i].frameToken == t && msgs[i].outcome != Acquired(true) ==>
      Failed(msgs[..i + 1], t)
  {
    if Failed(msgs[..i], t) {
      var k :| 0 <= k < i && msgs[..i][k].FrameMsg? && msgs[..i][k].frameToken == t &&
        msgs[..i][k].outcome != Acquired(true);
      assert msgs[..i + 1][k] == msgs[..i][k];
    }
    assert msgs[..i + 1][i] == msgs[i];
  }

  /** Every window marked for a rebuild had a failed frame among `seen`. */
  predicate RebuildsOnlyFailed(ws: seq<RenderWindow>, seen: seq<RenderMsg>)
    reads set w | w in ws
  {
    forall k | 0 <= k < |ws| :: ws[k].mustRebuild ==> Failed(seen, ws[k].token)
  }

  /** One turn of `render_loop` for a message other than `Exit`. */
  method Handle(r: Renderer, msgs: seq<RenderMsg>, i: nat)
    requires i < |msgs| && !msgs[i].ExitMsg?
    requires r.Valid() && RebuildsOnlyFailed(r.windows, msgs[..i])
    requires msgs[i].FrameMsg? ==> msgs[i].frameToken in Tokens(r.windows)
    modifies r, set w | w in r.windows
    ensures r.Valid() && RebuildsOnlyFailed(r.windows, msgs[..i + 1])
    ensures Tokens(r.windows) ==
      Tokens(old(r.windows)) + (if msgs[i].WindowOpenMsg? then [msgs[i].openToken] else [])
    ensures forall k | 0 <= k < |r.windows| :: r.windows[k] in old(r.windows) || fresh(r.windows[k])
  {
    forall t {
      FailedGrows(msgs, i, t);
    }
    match msgs[i]
    case WindowOpenMsg(token) =>
      ghost var before := r.windows;
      r.WindowOpen(token);
      assert r.windows == before + [r.windows[|before|]];
    case WindowCloseMsg(token) =>
      r.WindowClose(token);
    case FrameMsg(token, outcome) =>
      var found := r.Frame(token, outcome);
    case FramesMsg =>
  }

  /** `render_loop`: builds the renderer for the initial windows, then handles the messages
      in order up to the first `Exit`: opening appends a window, closing and `Frames` do
      nothing, and a frame may mark its window for a rebuild. Afterwards the windows are the
      initial ones followed by those opened, and a window needs a rebuild only if one of its
      frames failed. */
  method RenderLoop(initial: seq<nat>, msgs: seq<RenderMsg>) returns (r: Renderer, processed: nat)
    requires FramesKnown(initial, msgs)
    ensures fresh(r) && r.Valid()
    ensures processed == FirstExit(msgs)
    ensures Tokens(r.windows) == initial + Opened(msgs[..processed])
    ensures RebuildsOnlyFailed(r.windows, msgs[..processed])
  {
    r := new Renderer(initial);
    var i := 0;
    assert msgs[..0] == [];
    while i < |msgs| && !msgs[i].ExitMsg?
      invariant 0 <= i <= |msgs|
      invariant forall j | 0 <= j < i :: !msgs[j].ExitMsg?
      invariant fresh(r) && r.Valid()
      invariant forall k | 0 <= k < |r.windows| :: fresh(r.windows[k])
      invariant Tokens(r.windows) == initial + Opened(msgs[..i])
      invariant RebuildsOnlyFailed(r.windows, msgs[..i])
    {
      assert msgs[..i + 1][..i] == msgs[..i];
      assert i < FirstExit(msgs);
      Handle(r, msgs, i);
      i := i + 1;
    }
    processed := i;
  }
}
