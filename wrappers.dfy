/** Optional values and success/failure results, the two shapes every collaborator
    of the launch pipeline answers in. */
module Wrappers {

  /** Swift's `Optional`: `None` stands for `nil`. */
  datatype Option<+T> = None | Some(value: T) {

    /** Swift's `x ?? default`. */
    function GetOr(default: T): T {
      match this
      case Some(v) => v
      case None => default
    }
  }

  /** The value of a throwing call: either what it returned or what it threw. */
  datatype Result<+R, +E> = Success(value: R) | Failure(error: E)
}
