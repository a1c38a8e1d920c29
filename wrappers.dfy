/** Option and Result, used where the Java code returns null or throws. */
module Wrappers {

  /** A value or nothing: stands for a Java reference that may be null. */
  datatype Option<+T> = None | Some(value: T)

  /** A value or an error: stands for a Java method that may throw. */
  datatype Result<+T, +E> = Ok(value: T) | Err(error: E)
}
