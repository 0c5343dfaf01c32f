/** Failure-carrying values shared by the other modules. */
module Wrappers {

  /** A value that may be absent: Go's nil error, nil slice or unset field. */
  datatype Option<+T> = None | Some(value: T)

  /** A value or the error that took its place: Go's `(T, error)` pair. */
  datatype Result<+T, +E> = Success(value: T) | Failure(error: E)
}
