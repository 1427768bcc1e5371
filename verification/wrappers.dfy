/** Failure-carrying datatypes shared by the rest of the model. */
module Wrappers {

  /** A value that may be absent (Go's nil pointer or a missing map entry). */
  datatype Option<+T> = None | Some(value: T)

  /** Either a value or an error message (Go's `(T, error)` pair). */
  datatype Result<+T, +E> = Success(value: T) | Failure(error: E)
}
