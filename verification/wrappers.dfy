/** Failure-compatible wrappers used across the model: `Option` for Python's
    `None`-or-value inputs and outputs, `Result` for calls that may raise. */
module Wrappers {

  /** A value that may be absent (Python's `None`). */
  datatype Option<+T> = None | Some(value: T)

  /** The outcome of a call that either returns a value or raises with a message. */
  datatype Result<+R, +E> = Success(value: R) | Failure(error: E)
}
