/** Optional values and results with an error, shared by the other modules. */
module Outcomes {

  datatype Option<+T> = None | Some(value: T) {
    /** The wrapped value, or `default` when there is none (Python's `x or default`). */
    function GetOr(default: T): T {
      match this
      case Some(v) => v
      case None => default
    }
  }

  /** The value a call returns, or the exception it raises. */
  datatype Result<+T, +E> = Ok(value: T) | Err(error: E)
}
