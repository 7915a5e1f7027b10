/** Optional values (JavaScript's `null`/`undefined` versus a present value)
    and the outcome of a call that may throw. */
module Wrappers {

  datatype Option<+T> = None | Some(value: T) {
    /** The value, or `default` when absent. */
    function GetOr(default: T): T {
      match this
      case Some(v) => v
      case None => default
    }
  }

  /** Either the value a call returned or the error it raised. */
  datatype Result<+R, +E> = Success(value: R) | Failure(error: E)
}
