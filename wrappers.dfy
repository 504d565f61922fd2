/** Optional values and results of calls that may throw. */
module Wrappers {

  datatype Option<+T> = None | Some(value: T) {
    function GetOr(default: T): T {
      match this
      case Some(v) => v
      case None => default
    }
  }

  /** The outcome of a call that either returns a value or raises an error with a message. */
  datatype Result<+T> = Ok(value: T) | Err(error: string)
}
