/** Values for lookups that may find nothing and for operations that may be rejected. */
module Wrappers {

  /** A lookup result: a row, or nothing (Python's None). */
  datatype Option<+T> = None | Some(value: T)

  /** An operation that either produces a value or is rejected with an error. */
  datatype Result<+R, +E> = Success(value: R) | Failure(error: E)

  /** A check that either passes or fails with an error. */
  datatype Outcome<+E> = Pass | Fail(error: E)
}
