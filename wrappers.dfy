/** Result types standing in for Java's null returns and exceptions. */
module Wrappers {

  /** A value or nothing: a Java reference that may be null. */
  datatype Option<+T> = None | Some(value: T)

  /** A value, or the exception a Java call throws instead of returning one. */
  datatype Result<+T, +E> = Success(value: T) | Failure(error: E)

  /** The outcome of a Java `void` call: it returns, or it throws. */
  datatype Outcome<+E> = Pass | Fail(error: E)
}
