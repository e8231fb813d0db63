/** Optional values and results shared by every module of the model. */
module Wrappers {

  /** A value that may be absent: JavaScript's `null`/`undefined`, or `NaN`
      where a number failed to parse. */
  datatype Option<+T> = None | Some(value: T) {
    function GetOr(default: T): T {
      match this
      case Some(v) => v
      case None => default
    }
  }

  /** The outcome of a computation that may throw. */
  datatype Result<+R, +E> = Success(value: R) | Failure(error: E)
}
