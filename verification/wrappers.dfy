/** Optional values and error-carrying results, standing in for JavaScript's
    `undefined` and for thrown errors. */
module Wrappers {

  datatype Option<+T> = None | Some(value: T) {
    function GetOr(default: T): T {
      match this
      case Some(v) => v
      case None => default
    }
  }

  /** The outcome of an operation that can throw: its value, or the error message. */
  datatype Result<+T> = Ok(value: T) | Err(message: string)
}
