/** The optional value used wherever the source has `T | undefined` or `T | null`. */
module Wrappers {

  datatype Option<+T> = None | Some(value: T) {

    /** The value, or `default` when there is none. */
    function GetOr(default: T): T {
      match this
      case Some(v) => v
      case None => default
    }
  }

  /** Spread semantics of `{ ...current, ...patch }` for one key: a key present in
      the patch overrides, an absent key keeps the current value. */
  function Override<T>(current: T, patch: Option<T>): (r: T)
    ensures patch.None? ==> r == current
    ensures patch.Some? ==> r == patch.value
  {
    patch.GetOr(current)
  }
}
