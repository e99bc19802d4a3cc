/** Option and Result values used throughout the model. */
module Wrappers {

  /** A value that may be absent (JavaScript's `undefined`/`null`). */
  datatype Option<+T> = None | Some(value: T) {
    function GetOr(default: T): T {
      match this
      case Some(v) => v
      case None => default
    }
  }

  /** The outcome of an operation that may fail with an error response. */
  datatype Result<+R, +E> = Success(value: R) | Failure(error: E)
}
