/** Option and Result, the failure-compatible wrappers used across the model.
    A Python `None` becomes `None`; a raised exception becomes `Failure`. */
module Wrappers {

  datatype Option<+T> = None | Some(value: T) {
    function GetOr(default: T): T {
      match this
      case Some(v) => v
      case None => default
    }
  }

  datatype Result<+T, +E> = Success(value: T) | Failure(error: E)
}
