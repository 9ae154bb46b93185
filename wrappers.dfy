/** Optional values and results shared by every module of the model. */
module Wrappers {

  /** A value that may be absent: Python's None, JavaScript's null or undefined,
      and a missing (NaN) cell of a pandas column. */
  datatype Option<+T> = None | Some(value: T) {
    function GetOr(default: T): T {
      match this
      case Some(v) => v
      case None => default
    }
  }

  /** An operation that either produces a value or fails with an error. */
  datatype Result<+T, +E> = Ok(value: T) | Err(error: E)
}
