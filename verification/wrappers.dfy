/**
 * Option, Result and Outcome: Python's `None`, a value-or-exception, and a
 * step that either passes or fails.
 */
module Wrappers {

  datatype Option<+T> = None | Some(value: T)

  datatype Result<+R, +E> = Success(value: R) | Failure(error: E)

  datatype Outcome<+E> = Pass | Fail(error: E)
}
