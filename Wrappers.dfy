/** Failure-compatible wrappers used throughout the model. */
module Wrappers {

  /** A value that may be missing; `None` also stands for a Java `null`. */
  datatype Option<+T> = None | Some(value: T)

  /** The verdict of a check that either passes or fails with an error. */
  datatype Outcome<+E> = Pass | Fail(error: E)

  /** A computation that either yields a value or fails with an error. */
  datatype Result<+R, +E> = Success(value: R) | Failure(error: E)
}
