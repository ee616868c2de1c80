/** Option and Result, used for Go's nil pointers and (value, error) pairs. */
module Wrappers {

  /** A Go pointer or interface value that may be nil: None is nil. */
  datatype Option<+T> = None | Some(value: T)

  /** A Go `(value, error)` return where exactly one side is meaningful. */
  datatype Result<+R, +E> = Success(value: R) | Failure(error: E)
}
