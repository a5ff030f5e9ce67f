/** Failure-compatible wrappers shared by the other modules. */
module Wrappers {

  /** A value that may be absent (PHP's `null`). */
  datatype Option<+T> = None | Some(value: T) {
    function GetOr(default: T): T {
      match this
      case Some(v) => v
      case None => default
    }
  }

  /** The value an operation returns, or the error it raises. */
  datatype Result<+R, +E> = Success(value: R) | Failure(error: E)
}
