/** The platform-independent window vocabulary of src/window.rs: the window `State`, the
    close signal, and the default methods of the `Window` trait. */
module Window {
  import opened Common

  /** The display state a window is asked for or reported in. */
  datatype State = Normal | Minimized | Maximized | Fullscreen | Hidden

  /** The optional close handler; it answers whether the window may close. */
  class OnCloseSig {
    var sig: Option<() -> bool>

    /** `OnCloseSig::new()`: no handler. */
    constructor ()
      ensures sig == None && !IsSet()
    {
      sig := None;
    }

    /** `is_set()`. */
    predicate IsSet()
      reads this
    {
      sig.Some?
    }

    /** `set(s)`: replaces the handler; it is set afterwards exactly when `s` is `Some`. */
    method Set(s: Option<() -> bool>)
      modifies this
      ensures sig == s
      ensures IsSet() == s.Some?
    {
      sig := s;
    }

    /** `fire()`: the handler's answer; the source unwraps, so a handler must be set. */
    method Fire() returns (r: bool)
      requires IsSet()
      ensures r == sig.value()
    {
      r := sig.value();
    }

    /** `fire_or(def)`: the handler's answer, or `def` when there is none. */
    method FireOr(def: bool) returns (r: bool)
      ensures !IsSet() ==> r == def
      ensures IsSet() ==> r == sig.value()
    {
      match sig
      case Some(f) => r := f();
      case None => r := def;
    }
  }

  /** The state every window implementation embeds. */
  class WindowBase {
    const onClose: OnCloseSig

    /** `WindowBase::new()`: a fresh close signal with no handler. */
    constructor ()
      ensures fresh(onClose) && !onClose.IsSet()
    {
      onClose := new OnCloseSig();
    }
  }

  /** A window as its trait's default methods see it: its base, and the sequence of states
      the implementation's `set_state` has been called with. */
  class Window {
    const base: WindowBase
    var stateRequests: seq<State>

    constructor ()
      ensures fresh(base) && fresh(base.onClose) && !base.onClose.IsSet()
      ensures stateRequests == []
    {
      base := new WindowBase();
      stateRequests := [];
    }

    /** The implementation's `set_state`, seen from the trait. */
    method SetState(s: State)
      modifies this
      ensures stateRequests == old(stateRequests) + [s]
    {
      stateRequests := stateRequests + [s];
    }

    /** `show_normal()`. */
    method ShowNormal()
      modifies this
      ensures stateRequests == old(stateRequests) + [Normal]
    {
      SetState(Normal);
    }

    /** `show_minimized()`. */
    method ShowMinimized()
      modifies this
      ensures stateRequests == old(stateRequests) + [Minimized]
    {
      SetState(Minimized);
    }

    /** `show_maximized()`. */
    method ShowMaximized()
      modifies this
      ensures stateRequests == old(stateRequests) + [Maximized]
    {
      SetState(Maximized);
    }

    /** `show_fullscreen()`. */
    method ShowFullscreen()
      modifies this
      ensures stateRequests == old(stateRequests) + [Fullscreen]
    {
      SetState(Fullscreen);
    }

    /** `hide()`. */
    method Hide()
      modifies this
      ensures stateRequests == old(stateRequests) + [Hidden]
    {
      SetState(Hidden);
    }

    /** `on_close_do(sig)`: stores `sig` as the base's close handler. */
    method OnCloseDo(sig: Option<() -> bool>)
      modifies base.onClose
      ensures base.onClose.sig == sig
    {
      base.onClose.Set(sig);
    }
  }
}
