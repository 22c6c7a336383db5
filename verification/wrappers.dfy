/** Option and Result, standing in for Java's nullable references and thrown exceptions. */
module Wrappers {

  /** A value that may be absent (a Java reference that may be null). */
  datatype Option<+T> = None | Some(value: T)

  /** Either a computed value or the error that the Java code would have thrown instead. */
  datatype Result<+T, +E> = Success(value: T) | Failure(error: E)
}
