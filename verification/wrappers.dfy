/** Option and Result, the failure-carrying values used across the model. */
module Wrappers {

  /** A value that may be absent: JavaScript's `undefined`/`null` for a field or a lookup. */
  datatype Option<+T> = None | Some(value: T) {
    function GetOr(default: T): T {
      match this
      case Some(v) => v
      case None => default
    }
  }

  /** The outcome of an operation that can throw or reject. */
  datatype Result<+R, +E> = Success(value: R) | Failure(error: E)
}
