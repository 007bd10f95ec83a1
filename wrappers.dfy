/** Optional values and results with an error, as used throughout the model. */
module Wrappers {

  /** A JavaScript value that may be null or undefined (None) or present (Some). */
  datatype Option<+T> = None | Some(value: T) {

    /** `this ?? other` for two optional values: the first that is present. */
    function OrElse(other: Option<T>): (r: Option<T>)
      ensures Some? ==> r == this
      ensures None? ==> r == other
    {
      if Some? then this else other
    }

    /** `this ?? fallback`: the value when present, otherwise the fallback. */
    function GetOr(fallback: T): (r: T)
      ensures Some? ==> r == value
      ensures None? ==> r == fallback
    {
      match this
      case Some(v) => v
      case None => fallback
    }
  }

  /** The outcome of a computation that may throw. */
  datatype Result<+R, +E> = Success(value: R) | Failure(error: E)
}
