/** Optional values and success-or-error outcomes, the two shapes the
    inventory code uses for `T | null` and for a call that may throw. */
module Wrappers {

  /** `Some(v)` for a present value, `None` for JavaScript's `null`/omitted. */
  datatype Option<+T> = None | Some(value: T) {

    /** The carried value, or `default` when absent. */
    function GetOr(default: T): T {
      match this
      case Some(v) => v
      case None => default
    }
  }

  /** The outcome of a call that either returns a value or throws an error
      carrying a value of type `E` (for the service: the `Error` message). */
  datatype Result<+T, +E> = Success(value: T) | Failure(error: E)
}
