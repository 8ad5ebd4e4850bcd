/** Option and Result, the shapes used for PHP's nullable values and for operations that can fail. */
module Wrappers {

  datatype Option<+T> = None | Some(value: T) {
    /** PHP's `$x ?? $default`. */
    function GetOr(default: T): T {
      match this
      case Some(v) => v
      case None => default
    }
  }

  datatype Result<+T, +E> = Success(value: T) | Failure(error: E)
}
