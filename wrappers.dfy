/** Optional values and results with an error message, as used throughout the model. */
module Wrappers {

  datatype Option<+T> = None | Some(value: T) {
    function GetOr(default: T): T {
      match this
      case Some(v) => v
      case None => default
    }
  }

  /** `Err` carries the message of an exception the source would throw. */
  datatype Result<+T> = Ok(value: T) | Err(message: string)
}
