/** Option and Result values used across the model. */
module Wrappers {

  /** A value that may be absent (JavaScript `null`/`undefined`). */
  datatype Option<+T> = None | Some(value: T) {
    function GetOr(default: T): T {
      match this
      case Some(v) => v
      case None => default
    }
  }

  /** The outcome of a validation: the accepted value, or the list of messages. */
  datatype Result<+R, +E> = Success(value: R) | Failure(error: E)
}
