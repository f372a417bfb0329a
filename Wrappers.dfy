/** Option and Result values used where the Python code returns None or an error. */
module Wrappers {

  datatype Option<+T> = None | Some(value: T) {
    function GetOr(default: T): T {
      match this
      case Some(v) => v
      case None => default
    }
  }

  /** An operation that either yields a value or fails with a human-readable message. */
  datatype Result<+T> = Ok(value: T) | Err(message: string)
}
