/** Option and Result, used for optional JSON fields and for raised exceptions. */
module Wrappers {

  datatype Option<+T> = None | Some(value: T) {
    /** The value, or `default` when absent (Python's `dict.get(key, default)`). */
    function GetOr(default: T): T {
      match this
      case Some(v) => v
      case None => default
    }
  }

  /** A computation that returned a value or raised an exception. */
  datatype Result<+T, +E> = Ok(value: T) | Err(error: E)
}
