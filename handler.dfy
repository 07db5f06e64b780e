/** The handler containers that `define_handler!` (src/handler.rs) and its twin `define_event!`
    (src/macros.rs) generate. A boxed closure is modelled by its identity, the value `h_to_id`
    derives from the box, and by its effect: given the state `W` that the closures capture
    (the `tracer` cell of the tests, say) and the arguments `A`, the state it leaves. The `Fn`
    and `FnMut` variants of the macros behave alike under this model. */
module Handler {
  import opened Common

  /** A boxed multi-handler closure. */
  datatype Callback<!W, !A> = Callback(id: nat, run: (W, A) -> W)

  /** The state after running every handler of `hs` once, in order, each with `a`. */
  function FireAll<W, A>(hs: seq<Callback<W, A>>, w: W, a: A): W
  {
    if hs == [] then w else FireAll(hs[1..], hs[0].run(w, a), a)
  }

  /** `hs` without the handlers whose id is `id`, the others kept in order (`Vec::retain`). */
  function Without<W, A>(hs: seq<Callback<W, A>>, id: nat): seq<Callback<W, A>>
  {
    if hs == [] then []
    else if hs[0].id == id then Without(hs[1..], id)
    else [hs[0]] + Without(hs[1..], id)
  }

  /** Some handler of `hs` has the id `id`. */
  predicate HasId<W, A>(hs: seq<Callback<W, A>>, id: nat)
  {
    exists i | 0 <= i < |hs| :: hs[i].id == id
  }

  /** Firing a concatenation fires the first part, then the second. */
  lemma {:induction false} FireAllAppend<W, A>(s: seq<Callback<W, A>>, t: seq<Callback<W, A>>, w: W, a: A)
    ensures FireAll(s + t, w, a) == FireAll(t, FireAll(s, w, a), a)
  {
    if s != [] {
      assert (s + t)[1..] == s[1..] + t;
      FireAllAppend(s[1..], t, s[0].run(w, a), a);
    } else {
      assert s + t == t;
    }
  }

  /** `Without` keeps exactly the handlers whose id differs: every element of the result is
      an element of the input with another id, and every element of the input with another id
      is in the result. */
  lemma {:induction false} WithoutKeepsOthers<W, A>(hs: seq<Callback<W, A>>, id: nat)
    ensures forall h | h in Without(hs, id) :: h in hs && h.id != id
    ensures forall h | h in hs && h.id != id :: h in Without(hs, id)
  {
    if hs != [] {
      WithoutKeepsOthers(hs[1..], id);
      assert hs == [hs[0]] + hs[1..];
    }
  }

  /** `Without` removes something exactly when some handler has the id. */
  lemma {:induction false} WithoutShrinks<W, A>(hs: seq<Callback<W, A>>, id: nat)
    ensures |Without(hs, id)| <= |hs|
    ensures |Without(hs, id)| < |hs| <==> HasId(hs, id)
  {
    if hs != [] {
      WithoutShrinks(hs[1..], id);
      if HasId(hs[1..], id) {
        var i :| 0 <= i < |hs[1..]| && hs[1..][i].id == id;
        assert hs[i + 1].id == id;
      }
      if HasId(hs, id) && hs[0].id != id {
        var i :| 0 <= i < |hs| && hs[i].id == id;
        assert hs[1..][i - 1].id == id;
      }
    }
  }

  /** `Without` of a prefix extended by one handler. */
  lemma {:induction false} WithoutSnoc<W, A>(s: seq<Callback<W, A>>, h: Callback<W, A>, id: nat)
    ensures Without(s + [h], id) == Without(s, id) + (if h.id == id then [] else [h])
  {
    if s == [] {
      assert s + [h] == [h];
    } else {
      assert (s + [h])[1..] == s[1..] + [h];
      WithoutSnoc(s[1..], h, id);
    }
  }

  /** A multi-handler list (`define_handler!(Name: Fn(..))`, `define_event!`). */
  class Handlers<W, A> {
    var handlers: seq<Callback<W, A>>

    /** `new()`: no handler. */
    constructor ()
      ensures handlers == []
    {
      handlers := [];
    }

    /** `new_with(h)`: exactly the one handler. */
    constructor NewWith(h: Callback<W, A>)
      ensures handlers == [h]
    {
      handlers := [h];
    }

    /** `new_with_n(hs)`: exactly the given list. */
    constructor NewWithN(hs: seq<Callback<W, A>>)
      ensures handlers == hs
    {
      handlers := hs;
    }

    /** `len()`. */
    function Len(): nat
      reads this
    {
      |handlers|
    }

    /** `is_empty()`. */
    predicate IsEmpty()
      reads this
    {
      |handlers| == 0
    }

    /** `add(h)`: appends `h` and returns its id. */
    method Add(h: Callback<W, A>) returns (id: nat)
      modifies this
      ensures handlers == old(handlers) + [h]
      ensures Len() == old(Len()) + 1
      ensures id == h.id
    {
      id := h.id;
      handlers := handlers + [h];
    }

    /** `remove(id)`: drops every handler with that id, keeping the others in order, and
        reports whether one was dropped. */
    method Remove(id: nat) returns (removed: bool)
      modifies this
      ensures handlers == Without(old(handlers), id)
      ensures removed <==> HasId(old(handlers), id)
      ensures removed <==> Len() < old(Len())
    {
      var before := handlers;
      var kept: seq<Callback<W, A>> := [];
      var i := 0;
      while i < |before|
        invariant 0 <= i <= |before|
        invariant kept == Without(before[..i], id)
      {
        WithoutSnoc(before[..i], before[i], id);
        assert before[..i + 1] == before[..i] + [before[i]];
        if before[i].id != id {
          kept := kept + [before[i]];
        }
        i := i + 1;
      }
      assert before[..i] == before;
      WithoutShrinks(before, id);
      handlers := kept;
      removed := |before| > |handlers|;
    }

    /** `fire(a)`: runs every handler once, in insertion order, each with the same
        arguments, starting from the state `w`. */
    method Fire(w: W, a: A) returns (w': W)
      ensures w' == FireAll(handlers, w, a)
    {
      w' := w;
      var i := 0;
      while i < |handlers|
        invariant 0 <= i <= |handlers|
        invariant w' == FireAll(handlers[..i], w, a)
      {
        assert handlers[..i + 1] == handlers[..i] + [handlers[i]];
        FireAllAppend(handlers[..i], [handlers[i]], w, a);
        w' := handlers[i].run(w', a);
        i := i + 1;
      }
      assert handlers[..i] == handlers;
    }
  }

  /** A single-slot handler (`define_handler!(Name: Fn(..) => R)`). The `FnMut` variant takes
      `&mut self` in `fire`, but firing never changes the slot. */
  class Slot<A, R> {
    var handler: Option<A -> R>

    /** `new()`: unset. */
    constructor ()
      ensures handler == None
    {
      handler := None;
    }

    /** `new_with(h)`: set to `h`. */
    constructor NewWith(h: A -> R)
      ensures handler == Some(h)
    {
      handler := Some(h);
    }

    /** `is_set()`. */
    predicate IsSet()
      reads this
    {
      handler.Some?
    }

    /** `set(h)`: replaces the slot; it is set afterwards exactly when `h` is `Some`. */
    method Set(h: Option<A -> R>)
      modifies this
      ensures handler == h
      ensures IsSet() == h.Some?
    {
      handler := h;
    }

    /** `fire(a)`: the handler's result, or `None` when unset. */
    method Fire(a: A) returns (r: Option<R>)
      ensures r.Some? <==> IsSet()
      ensures IsSet() ==> r.value == handler.value(a)
    {
      match handler
      case Some(f) => r := Some(f(a));
      case None => r := None;
    }

    /** `fire_or(def, a)`: the handler's result, or `def` when unset. */
    method FireOr(def: R, a: A) returns (r: R)
      ensures !IsSet() ==> r == def
      ensures IsSet() ==> r == handler.value(a)
    {
      match handler
      case Some(f) => r := f(a);
      case None => r := def;
    }
  }

  /** The `param` tests with a tracer (src/handler.rs:288-326, src/macros.rs:300-336): a
      handler that subtracts `2n` and one that adds `3n`; firing 6 leaves 6, and after removing
      the first, firing 7 leaves 27; removing the second empties the list. */
  method TracerScenario() returns (afterSix: int, afterSeven: int, emptyAtEnd: bool)
    ensures afterSix == 6 && afterSeven == 27 && emptyAtEnd
  {
    var h := new Handlers<int, int>();
    var silent := h.Fire(0, 15);
    var subtract := Callback(1, (t: int, n: int) => t - 2 * n);
    var addition := Callback(2, (t: int, n: int) => t + 3 * n);
    var sub := h.Add(subtract);
    var add := h.Add(addition);
    assert h.handlers == [subtract, addition];
    assert FireAll([addition], -12, 6) == 6;
    afterSix := h.Fire(silent, 6);
    var removedSub := h.Remove(sub);
    assert Without([addition], 1) == [addition];
    assert h.handlers == [addition];
    assert FireAll([addition], 6, 7) == 27;
    afterSeven := h.Fire(afterSix, 7);
    var removedAdd := h.Remove(add);
    assert Without([addition], 2) == [];
    emptyAtEnd := h.IsEmpty();
  }

  /** The `no_param_ret` tests (src/handler.rs:251-262, src/macros.rs:342-353): unset, the
      slot yields the default 40 and no result; once set to a handler returning 37 it yields
      37 both ways. */
  method SlotScenario() returns (unsetOr: int, unsetFire: Option<int>, setOr: int, setFire: Option<int>)
    ensures unsetOr == 40 && unsetFire == None
    ensures setOr == 37 && setFire == Some(37)
  {
    var h := new Slot<(), int>();
    unsetOr := h.FireOr(40, ());
    unsetFire := h.Fire(());
    h.Set(Some((_: ()) => 37));
    setOr := h.FireOr(40, ());
    setFire := h.Fire(());
  }
}
