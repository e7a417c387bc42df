/** Option and Result carriers for Go's nil-able values and (value, error) returns. */
module Wrappers {

  /** A Go value that may be nil. */
  datatype Option<+T> = None | Some(value: T)

  /** The `(value, err)` pair that a Go constructor returns, with exactly one side set. */
  datatype Result<+R, +E> = Success(value: R) | Failure(error: E)
}
