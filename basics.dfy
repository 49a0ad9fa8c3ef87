/** Option and Result: the shapes of a value that may be absent (a JSON key
    that is not in the payload, a column that is NULL) and of a handler
    outcome that may be an HTTP error. */
module Basics {

  datatype Option<+T> = None | Some(value: T) {
    function GetOr(default: T): T {
      match this
      case Some(v) => v
      case None => default
    }
  }

  datatype Result<+T, +E> = Success(value: T) | Failure(error: E)
}
