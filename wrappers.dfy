/** Optional values and string-carrying errors shared by the other modules. */
module Wrappers {
  /** A value that may be missing, Python's `Optional[T]`. */
  datatype Option<+T> = None | Some(value: T) {
    /** The carried value, or `default` when there is none. */
    function GetOr(default: T): T {
      match this
      case Some(v) => v
      case None => default
    }
  }

  /** A computation that either produced a value or raised an exception with a message. */
  datatype Result<+T> = Ok(value: T) | Err(error: string)
}
