/** Option, Result and Outcome values used for the source's `None` and its exceptions. */
module Wrappers {

  /** A value that may be absent (Python's `None`). */
  datatype Option<+T> = None | Some(value: T)

  /** A computed value, or the exception the source raises instead. */
  datatype Result<+T, +E> = Ok(value: T) | Err(error: E)

  /** A step that either completes or raises; used by methods whose output is a state change. */
  datatype Outcome<+E> = Pass | Fail(error: E)
}
