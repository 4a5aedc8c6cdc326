/** Optional values and success/failure results shared by every module of the model. */
module Wrappers {

  /** A JavaScript value that may be `null`/`undefined` (`None`) or present (`Some`). */
  datatype Option<+T> = None | Some(value: T) {

    function GetOr(default: T): T {
      match this
      case Some(v) => v
      case None => default
    }
  }

  /** The settlement of a promise: resolved with a value, or rejected with a thrown value. */
  datatype Result<+R, +E> = Success(value: R) | Failure(error: E)
}
