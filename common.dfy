/** Small vocabulary shared by every module of the model. */
module Common {
  /** Rust's `Option<T>`. */
  datatype Option<T> = None | Some(value: T)
  {
    /** `Option::is_some`. */
    predicate IsSome() { Some? }

    /** `Option::unwrap_or`. */
    function UnwrapOr(def: T): (r: T)
      ensures Some? ==> r == value
      ensures None? ==> r == def
    {
      match this
      case Some(v) => v
      case None => def
    }
  }
}
