/** Option, Result and Outcome: how the model spells Go's `(value, error)` returns. */
module Wrappers {

  datatype Option<+T> = None | Some(value: T)

  /** A value or an error, as a Go function returning `(T, error)`. */
  datatype Result<+T, +E> = Success(value: T) | Failure(error: E)

  /** An error or nothing, as a Go function returning only `error`. */
  datatype Outcome<+E> = Pass | Fail(error: E)
}
