/** Optional values and success/failure results shared by every module. */
module Wrappers {

  /** An absent-or-present value: Go's nil pointer versus a pointer to a record. */
  datatype Option<+T> = None | Some(value: T)

  /** A value or an error, for Go functions returning `(T, error)`. */
  datatype Result<+T, +E> = Success(value: T) | Failure(error: E)

  /** A bare success or an error, for Go functions returning only `error`. */
  datatype Outcome<+E> = Pass | Fail(error: E)
}
