/** The helper macros of src/macros.rs that act on a shared (`RefCell`) handler or event:
    each borrows it mutably and forwards to one method of the containers in `Handler`. */
module Macros {
  import opened Common
  import opened Handler

  /** `handler_do!(h, f)`: sets the slot to `f`. */
  method HandlerDo<A, R>(h: Slot<A, R>, f: A -> R)
    modifies h
    ensures h.handler == Some(f) && h.IsSet()
  {
    h.Set(Some(f));
  }

  /** `handler_do_nothing!(h)`: clears the slot. */
  method HandlerDoNothing<A, R>(h: Slot<A, R>)
    modifies h
    ensures h.handler == None && !h.IsSet()
  {
    h.Set(None);
  }

  /** `event_add!(ev, f)`: appends `f` and yields the id `add` returns. */
  method EventAdd<W, A>(ev: Handlers<W, A>, f: Callback<W, A>) returns (id: nat)
    modifies ev
    ensures ev.handlers == old(ev.handlers) + [f]
    ensures id == f.id
  {
    id := ev.Add(f);
  }

  /** `event_rem!(ev, id)`: yields what `remove` returns. */
  method EventRem<W, A>(ev: Handlers<W, A>, id: nat) returns (res: bool)
    modifies ev
    ensures ev.handlers == Without(old(ev.handlers), id)
    ensures res <==> HasId(old(ev.handlers), id)
  {
    res := ev.Remove(id);
  }

  /** `event_fire!(ev, a)`: fires every handler in order. */
  method EventFire<W, A>(ev: Handlers<W, A>, w: W, a: A) returns (w': W)
    ensures w' == FireAll(ev.handlers, w, a)
  {
    w' := ev.Fire(w, a);
  }

  /** `handler_fire!(h, a)`: the slot's result, if set. */
  method HandlerFire<A, R>(h: Slot<A, R>, a: A) returns (r: Option<R>)
    ensures r.Some? <==> h.IsSet()
    ensures h.IsSet() ==> r.value == h.handler.value(a)
  {
    r := h.Fire(a);
  }

  /** `handler_fire_or!(h, def, a)`: the slot's result, or `def` when unset. */
  method HandlerFireOr<A, R>(h: Slot<A, R>, def: R, a: A) returns (r: R)
    ensures !h.IsSet() ==> r == def
    ensures h.IsSet() ==> r == h.handler.value(a)
  {
    r := h.FireOr(def, a);
  }
}
