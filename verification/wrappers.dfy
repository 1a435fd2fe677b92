/** Failure-carrying datatypes used where the Java code returns null or throws. */
module Wrappers {

  /** A value that may be absent (a Java reference that may be null). */
  datatype Option<+T> = None | Some(value: T)

  /** A computed value, or the exception the Java code would throw instead. */
  datatype Result<+T, +E> = Success(value: T) | Failure(error: E)

  /** Completion of a `void` Java method: normal return, or a thrown exception. */
  datatype Outcome<+E> = Pass | Fail(error: E)
}
