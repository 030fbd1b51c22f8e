/** Option and Result: the Go code's nil pointers and (value, error) pairs. */
module Wrappers {

  /** A Go pointer or map lookup that may come back nil. */
  datatype Option<+T> = None | Some(value: T)

  /** A Go `(value, error)` return: exactly one of the two is meaningful. */
  datatype Result<+T, +E> = Success(value: T) | Failure(error: E)
}
