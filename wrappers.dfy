/** Option and Result values standing for JavaScript's `null` results and thrown errors. */
module Wrappers {

  /** A value that may be absent (`null` in the source). */
  datatype Option<+T> = None | Some(value: T)

  /** Either a value or the error that a call would have thrown. */
  datatype Result<+T, +E> = Success(value: T) | Failure(error: E)
}
