/** Option, Result and Outcome: the model's stand-ins for Python's `None`
    and for raised exceptions. */
module Wrappers {

  /** A value that may be absent (Python's `Optional`). */
  datatype Option<+T> = None | Some(value: T)

  /** A computed value, or the error the source raises instead. */
  datatype Result<+T, +E> = Success(value: T) | Failure(error: E)

  /** An operation that either completes or raises an error. */
  datatype Outcome<+E> = Pass | Fail(error: E)
}
