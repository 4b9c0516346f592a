/** Failure-compatible helper datatypes shared by every module of the model. */
module Wrappers {

  /** An optional value: a JavaScript `null`/`undefined` or a present value. */
  datatype Option<+T> = None | Some(value: T) {
    function GetOr(default: T): T {
      match this
      case Some(v) => v
      case None => default
    }
  }

  /** The outcome of an operation that may throw: a value or the thrown error. */
  datatype Result<+R, +E> = Success(value: R) | Failure(error: E)
}
