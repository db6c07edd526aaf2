/** Optional values and results with an error, shared by the model. */
module Wrappers {

  /** A value that may be absent: `undefined` in TypeScript. */
  datatype Option<+T> = None | Some(value: T) {
    function GetOr(default: T): T {
      match this
      case Some(v) => v
      case None => default
    }
  }

  /** The outcome of a computation that may be rejected with an error. */
  datatype Result<+R, +E> = Success(value: R) | Failure(error: E)
}
