/** Option and Result values, standing for Go's multiple return values
    `(value, error)` and for values that may be absent. */
module Wrappers {

  datatype Option<+T> = None | Some(value: T)

  /** `Success(v)` is a call that returned `(v, nil)`; `Failure(e)` one that
      returned a non-nil error `e`. */
  datatype Result<+T, +E> = Success(value: T) | Failure(error: E)
}
