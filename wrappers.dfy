/** Option and Result: the null-or-value and success-or-error shapes used across the model. */
module Wrappers {

  /** A value that may be absent: `null` in a nullable column, `None` in Python. */
  datatype Option<+T> = None | Some(value: T)

  /** The outcome of an operation that can fail with an error value. */
  datatype Result<+T, +E> = Success(value: T) | Failure(error: E)
}
