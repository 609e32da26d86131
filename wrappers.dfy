/** Option and Result values: Go's `nil`-or-value and `(value, error)` returns. */
module Wrappers {

  /** `None` is Go's nil (no error, no slice); `Some(v)` a present value. */
  datatype Option<+T> = None | Some(value: T)

  /** The outcome of a Go call that returns `(value, err)`. */
  datatype Result<+T, +E> = Success(value: T) | Failure(error: E)
}
