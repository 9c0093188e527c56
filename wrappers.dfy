/** Option and Result, shared by the record model, the request handlers and the team page. */
module Wrappers {

  /** A value that may be absent: Python's `None`, JavaScript's `null`. */
  datatype Option<+T> = None | Some(value: T) {
    function GetOr(default: T): T {
      match this
      case Some(v) => v
      case None => default
    }
  }

  /** The outcome of an operation that may fail with an error of type E. */
  datatype Result<+T, +E> = Ok(value: T) | Err(error: E)
}
