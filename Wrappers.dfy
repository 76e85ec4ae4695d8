/** Failure-carrying result types: the model's stand-in for Python exceptions. */
module Wrappers {

  /** A value that may be missing; `None` also stands for a NaN float. */
  datatype Option<+T> = None | Some(value: T)

  /** The outcome of a call that either returns a value or raises. */
  datatype Result<+R, +E> = Success(value: R) | Failure(error: E)

  /** The outcome of a check that either passes or raises. */
  datatype Outcome<+E> = Pass | Fail(error: E)
}
