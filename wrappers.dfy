/** Option and Result values, used where the Go code returns a value together with an `error`. */
module Wrappers {

  datatype Option<+T> = None | Some(value: T)

  /** `Success(v)` stands for Go's `(v, nil)`, `Failure(e)` for `(zero value, e)`. */
  datatype Result<+R, +E> = Success(value: R) | Failure(error: E)
}
