/** Failure-compatible wrappers shared by the capture and detector models. */
module Wrappers {

  /** A value that may be absent (Python's `None`, or a NULL window handle). */
  datatype Option<+T> = None | Some(value: T)

  /** The outcome of an operation that can raise: a value or the error it raised. */
  datatype Result<+R, +E> = Success(value: R) | Failure(error: E)
}
