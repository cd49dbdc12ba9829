/** Option, Result and Outcome: the shapes of Go's `(value, error)` and `error` returns. */
module Wrappers {

  datatype Option<+T> = None | Some(value: T)

  /** `(value, nil)` is Success(value); `(zero, err)` is Failure(err). */
  datatype Result<+T, +E> = Success(value: T) | Failure(error: E)

  /** A Go function that returns only `error`: nil is Pass. */
  datatype Outcome<+E> = Pass | Fail(error: E)
}
