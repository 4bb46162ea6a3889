/** Optional values and results with an error, used for the nullable and throwing parts of the front-end. */
module Wrappers {

  /** A value that may be absent: JavaScript's `null`/`undefined` beside a present value. */
  datatype Option<+T> = None | Some(value: T) {
    function GetOr(default: T): T {
      match this
      case Some(v) => v
      case None => default
    }
  }

  /** The outcome of an operation that either returns a value or throws an error. */
  datatype Result<+R, +E> = Success(value: R) | Failure(error: E)
}
