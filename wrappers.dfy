/** Failure-carrying result types shared by the whole model. */
module Wrappers {

  datatype Option<+T> = None | Some(value: T)

  /** A value or an error, as a Go function returning `(T, error)`. */
  datatype Result<+T, +E> = Success(value: T) | Failure(error: E)

  /** No value, only an error or its absence, as a Go function returning `error`. */
  datatype Outcome<+E> = Pass | Fail(error: E)
}
