/** Option and Result, the two failure-carrying types used throughout the model. */
module Wrappers {

  datatype Option<+T> = None | Some(value: T) {
    function GetOr(default: T): T {
      match this
      case Some(v) => v
      case None => default
    }
  }

  /** Ok carries a value; Err carries the error a Python `raise` would have propagated. */
  datatype Result<+R, +E> = Ok(value: R) | Err(error: E)
}
