/** Optional values and the outcome of operations that can throw. */
module Wrappers {

  /** A value that may be absent (`undefined` / `null` in the source). */
  datatype Option<+T> = None | Some(value: T) {
    function GetOr(default: T): T {
      match this
      case Some(v) => v
      case None => default
    }
  }

  /** The result of an operation that either returns a value or throws an `Error(message)`. */
  datatype Result<+T> = Ok(value: T) | Err(error: string)

  /** The result of an operation that returns nothing or throws an `Error(message)`. */
  datatype Outcome = Pass | Fail(error: string)
}
