/** Option and Result, the two failure-carrying datatypes used across the model.
    A Python `None` return becomes `None`; a raised exception becomes `Err(message)`. */
module Wrappers {

  datatype Option<+T> = None | Some(value: T) {
    function GetOr(default: T): T {
      match this
      case Some(v) => v
      case None => default
    }
  }

  datatype Result<+T> = Ok(value: T) | Err(message: string)
}
