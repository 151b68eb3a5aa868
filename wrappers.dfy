/** Failure-carrying wrapper types shared by every module of the model. */
module Wrappers {

  /** A value that may be absent: Python's `None` or JavaScript's `null`. */
  datatype Option<+T> = None | Some(value: T) {
    function GetOr(default: T): T {
      match this
      case Some(v) => v
      case None => default
    }
  }

  /** The outcome of an operation that may raise. */
  datatype Result<+T, +E> = Ok(value: T) | Err(error: E)
}
