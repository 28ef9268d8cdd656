/** Absent-or-present values and error outcomes, standing in for Java's null and exceptions. */
module Wrappers {

  /** A value that may be absent: `None` models a Java `null` reference. */
  datatype Option<+T> = None | Some(value: T)

  /** The value of a computation, or the error it raised. */
  datatype Result<+R, +E> = Success(value: R) | Failure(error: E)

  /** The outcome of an operation that returns nothing but may raise an error. */
  datatype Outcome<+E> = Pass | Fail(error: E)
}
