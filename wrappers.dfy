/** Optional values and results with an error, as used throughout the model. */
module Wrappers {

  /** A value that may be absent: `undefined` in the source. */
  datatype Option<T> = None | Some(value: T) {
    /** The value, or `default` when absent (the source's `x ?? default`). */
    function GetOr(default: T): T {
      if Some? then value else default
    }
  }

  /** The outcome of an operation that may throw. */
  datatype Result<T, E> = Success(value: T) | Failure(error: E)
}
