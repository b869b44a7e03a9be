/** Optional values and results, the counterparts of Swift's `Optional` and `Result`. */
module Wrappers {

  datatype Option<+T> = None | Some(value: T) {
    /** Swift's `x ?? default`. */
    function GetOr(default: T): T {
      match this
      case Some(v) => v
      case None => default
    }
  }

  datatype Result<+R, +E> = Success(value: R) | Failure(error: E)
}
