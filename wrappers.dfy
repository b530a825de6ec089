/** Optional values and results, used for Go's nil pointers and (value, error) returns. */
module Wrappers {

  /** A Go pointer that may be nil, or an optional value. */
  datatype Option<+T> = None | Some(value: T) {
    function GetOr(default: T): T {
      match this
      case Some(v) => v
      case None => default
    }
  }

  /** A Go `(value, error)` pair where exactly one of the two is meaningful. */
  datatype Result<+T, +E> = Ok(value: T) | Err(error: E)
}
