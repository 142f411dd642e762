/** Failure-carrying wrappers shared by every module of the model. */
module Wrappers {

  /** A value that may be absent (a JavaScript `null` slot or a missing entry). */
  datatype Option<+T> = None | Some(value: T) {
    function GetOr(default: T): T {
      match this
      case Some(v) => v
      case None => default
    }
  }

  /** Either a computed value or the error a JavaScript expression would throw. */
  datatype Result<+T, +E> = Ok(value: T) | Err(error: E)
}
