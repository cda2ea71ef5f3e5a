/** Optional values and results with an error message. */
module Wrappers {

  datatype Option<+T> = None | Some(value: T) {
    function GetOr(default: T): T {
      match this
      case Some(v) => v
      case None => default
    }
  }

  /** The outcome of an operation of the original program that may raise:
      `Err` carries the exception's message. */
  datatype Result<+T> = Ok(value: T) | Err(message: string)
}
