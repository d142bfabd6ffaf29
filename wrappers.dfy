/** Optional values and results: the model's stand-ins for TypeScript's `T | undefined` and
    for a call that either returns or throws. */
module Wrappers {

  datatype Option<+T> = None | Some(value: T) {

    /** The value, or `default` when there is none. */
    function GetOr(default: T): T {
      match this
      case Some(v) => v
      case None => default
    }
  }

  /** The outcome of a call that returns a `T` or fails with an `E`. */
  datatype Result<+T, +E> = Success(value: T) | Failure(error: E)
}
