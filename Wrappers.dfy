/** Option and Result, the two failure-carrying shapes the program uses (Rust's Option and Result). */
module Wrappers {

  datatype Option<+T> = None | Some(value: T) {
    function GetOr(default: T): T {
      match this
      case Some(v) => v
      case None => default
    }
  }

  /** Errors in the program are human-readable messages, so the error side is a string. */
  datatype Result<+T> = Ok(value: T) | Err(error: string)
}
