/** Option and Result, the two failure-carrying values the model uses. */
module Wrappers {

  datatype Option<+T> = None | Some(value: T) {
    function GetOr(default: T): T {
      match this
      case Some(v) => v
      case None => default
    }
  }

  /** `Err` stands for a JavaScript exception that the source lets escape. */
  datatype Result<+T, +E> = Ok(value: T) | Err(error: E)
}
