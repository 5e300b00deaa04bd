/** Option and Result values used for the null pointers and exceptions of the modelled code. */
module Wrappers {

  /** A value that may be absent (a null pointer in the modelled code). */
  datatype Option<+T> = None | Some(value: T)

  /** The outcome of an operation that may throw or fail an assertion. */
  datatype Result<+T, +E> = Success(value: T) | Failure(error: E)
}
