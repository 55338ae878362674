/** Option and Result values shared by the other modules. */
module Wrappers {

  /** A value that may be absent, used for JavaScript's `null`. */
  datatype Option<+T> = None | Some(value: T)

  /** The outcome of an operation that either returns a value or throws. */
  datatype Result<+T, +E> = Success(value: T) | Failure(error: E)
}
