/** Optional values: the model's stand-in for TypeScript's `T | undefined`. */
module Wrappers {

  datatype Option<+T> = None | Some(value: T) {

    /** The value if present, otherwise `default` (the `x ?? d` of the source). */
    function GetOr(default: T): T {
      match this
      case Some(v) => v
      case None => default
    }
  }

  /** A patch entry: `Some(v)` overrides with `v`, `None` keeps the old value. */
  function Override<T>(patch: Option<T>, old_: T): T {
    patch.GetOr(old_)
  }

  /** `{ ...a, ...b }` on one patch entry: the later patch wins where it has a value. */
  function Then<T>(a: Option<T>, b: Option<T>): Option<T> {
    if b.Some? then b else a
  }

  /** Applying the combined entry is applying `a`, then `b`. */
  lemma ThenOverride<T>(a: Option<T>, b: Option<T>, x: T)
    ensures Override(Then(a, b), x) == Override(b, Override(a, x))
  {
  }
}
