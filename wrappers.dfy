/** Optional values and results of calls that may fail, shared by the table modules. */
module Wrappers {

  /** A value that may be absent: Go's nil pointer becomes None. */
  datatype Option<+T> = None | Some(value: T)

  /** The value of a call that may fail with an error. */
  datatype Result<+T, +E> = Success(value: T) | Failure(error: E)
}
