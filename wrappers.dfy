/** Optional values and the two shapes of a call that may fail. */
module Wrappers {

  /** A Java reference that may be null. */
  datatype Option<+T> = None | Some(value: T)

  /** A value-returning call that either succeeds or throws. */
  datatype Result<+T, +E> = Success(value: T) | Failure(error: E)

  /** A void call that either returns normally or throws. */
  datatype Outcome<+E> = Pass | Fail(error: E)
}
