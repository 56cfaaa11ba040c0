/** Option and Result: the Go code's `(value, error)` pairs and "missing value" cases. */
module Wrappers {

  datatype Option<+T> = None | Some(value: T)

  /** `Success(v)` stands for a Go `(v, nil)` return, `Failure(e)` for a non-nil error. */
  datatype Result<+T, +E> = Success(value: T) | Failure(error: E)
}
