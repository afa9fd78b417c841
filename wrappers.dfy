/** Optional values and results that carry an error message. */
module Wrappers {

  datatype Option<+T> = None | Some(value: T)

  /** A value, or the error a Go function returns beside its zero value. */
  datatype Result<+R, +E> = Success(value: R) | Failure(error: E)
}
