/** Option and Result, the shapes in which the model reports Rust's `Option`
    values and the panics of `expect`, `unwrap` and `panic!`. */
module Wrappers {

  datatype Option<+T> = None | Some(value: T) {
    /** `unwrap_or(default)` */
    function GetOr(default: T): T {
      match this
      case Some(v) => v
      case None => default
    }
  }

  /** `Ok(value)`, or `Err(error)` carrying the message the source would panic
      with or return as its error string. */
  datatype Result<+T, +E> = Ok(value: T) | Err(error: E)
}
