/** Optional values and results with an error, used by every other module. */
module Wrappers {

  /** A value that may be absent: JavaScript's `undefined`/`null` become None. */
  datatype Option<+T> = None | Some(value: T) {
    function GetOr(default: T): T {
      match this
      case Some(v) => v
      case None => default
    }
  }

  /** The outcome of an operation that either yields a value or stops with an error. */
  datatype Result<+R, +E> = Success(value: R) | Failure(error: E)
}
