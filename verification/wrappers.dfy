/** Failure-compatible result types shared by the path and option models. */
module Wrappers {

  datatype Option<+T> = None | Some(value: T)

  /** Either a value or the exception the Java code would have thrown. */
  datatype Result<+T, +E> = Success(value: T) | Failure(error: E)
}
