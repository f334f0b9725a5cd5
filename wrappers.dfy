/** Failure-compatible wrappers shared by the other modules. */
module Wrappers {

  /** A value that may be missing: JavaScript's `null`/`undefined`, a failed parse. */
  datatype Option<+T> = None | Some(value: T)

  /** The outcome of a computation that may throw or reject. */
  datatype Result<+T, +E> = Success(value: T) | Failure(error: E)
}
