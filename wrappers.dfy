/** Optional values and error returns shared by the other modules. */
module Wrappers {

  /** A value that may be absent: a missing query parameter, a missing field, NaN. */
  datatype Option<+T> = None | Some(value: T) {

    /** The value, or `default` when absent (JavaScript's `x || default` on a present, truthy x). */
    function GetOr(default: T): T {
      match this
      case Some(v) => v
      case None => default
    }
  }

  /** The outcome of a call that can throw. */
  datatype Result<+T, +E> = Success(value: T) | Failure(error: E)
}
