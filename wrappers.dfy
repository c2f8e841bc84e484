/** Failure-compatible wrappers used across the model. */
module Wrappers {

  /** A value that may be absent (JavaScript `undefined` / `null`). */
  datatype Option<+T> = None | Some(value: T)

  /** The value of an expression that may throw. */
  datatype Result<+R, +E> = Success(value: R) | Failure(error: E)

  /** The completion of a statement that may throw. */
  datatype Outcome<+E> = Pass | Fail(error: E)
}
