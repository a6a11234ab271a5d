/** Failure-carrying values used across the model. */
module Wrappers {

  datatype Option<+T> = None | Some(value: T) {
    function GetOr(default: T): T {
      match this
      case Some(v) => v
      case None => default
    }
  }

  /** A value, or the error a C++ `throw` would have raised instead. */
  datatype Result<+T, +E> = Ok(value: T) | Err(error: E)
}
