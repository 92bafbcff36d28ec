/** Failure-carrying values shared by the other modules. */
module Wrappers {

  datatype Option<+T> = None | Some(value: T)

  /** The `(value, error)` pair of the Go code and the thrown error of the
      JavaScript code, as one value. */
  datatype Result<+T, +E> = Success(value: T) | Failure(error: E)
}
