/** Failure-carrying values used in place of the exceptions and null returns of the source. */
module Results {

  /** A value that may be absent: a nullable reference. */
  datatype Option<+T> = None | Some(value: T)

  /** A computed value, or the error that was raised instead. */
  datatype Result<+T, +E> = Success(value: T) | Failure(error: E)

  /** The result of a check that returns nothing when it passes. */
  datatype Outcome<+E> = Pass | Fail(error: E)
}
