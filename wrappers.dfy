/** Optional values and results: a possibly missing value and a value-or-error. */
module Wrappers {

  /** A value that may be absent. A missing raster sample (NaN in the source) is `None`. */
  datatype Option<+T> = None | Some(value: T) {
    function GetOr(default: T): T {
      match this
      case Some(v) => v
      case None => default
    }
  }

  /** The outcome of an operation that may raise: a value, or the error it raised. */
  datatype Result<+R, +E> = Success(value: R) | Failure(error: E)
}
