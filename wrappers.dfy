/** Option and Result, the two failure-carrying wrappers used throughout the model. */
module Wrappers {

  /** A value that may be absent: `null`/`undefined` in the extension's JavaScript. */
  datatype Option<+T> = None | Some(value: T) {
    function GetOr(default: T): T {
      match this
      case Some(v) => v
      case None => default
    }
  }

  /** The outcome of a step that can throw: `Err` carries the error message. */
  datatype Result<+T> = Ok(value: T) | Err(error: string)
}
