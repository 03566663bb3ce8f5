/** Failure-carrying values: a Python call that returns `None`, a value or raises. */
module Wrappers {

  /** A Python value that may be `None`. */
  datatype Option<+T> = None | Some(value: T)

  /** A call that returns a value or raises an exception. */
  datatype Result<+R, +E> = Success(value: R) | Failure(error: E)

  /** A call that returns nothing or raises an exception. */
  datatype Outcome<+E> = Pass | Fail(error: E)
}
