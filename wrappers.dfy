/** Java's nullable references and thrown exceptions, as values. */
module Wrappers {

  /** A Java reference that may be null (None). */
  datatype Option<+T> = None | Some(value: T)

  /** The outcome of a Java call that either returns a value or throws. */
  datatype Result<+T, +E> = Success(value: T) | Failure(error: E)
}
