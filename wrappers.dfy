/** Optional values and results with an error, shared by every model module. */
module Wrappers {

  /** Swift's `T?` and Python's `None`-or-value. */
  datatype Option<+T> = None | Some(value: T) {
    /** Swift's `??` operator. */
    function GetOr(default: T): T {
      match this
      case Some(v) => v
      case None => default
    }
  }

  /** A value or the error a Swift `throws` function (or an HTTP handler) produces. */
  datatype Result<+T, +E> = Success(value: T) | Failure(error: E)
}
