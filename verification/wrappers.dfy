/** Optional values and results with an error, used by every other module. */
module Wrappers {

  /** Python's `None` versus a present value. */
  datatype Option<+T> = None | Some(value: T) {
    function GetOr(default: T): T {
      match this
      case Some(v) => v
      case None => default
    }
  }

  /** A value, or the exception a Python operation raises instead. */
  datatype Result<+T, +E> = Ok(value: T) | Err(error: E)
}
