/** Failure-compatible wrappers shared by every module of the model. */
module Wrappers {

  /** A value that may be missing: JavaScript's `undefined`/`null` results. */
  datatype Option<+T> = None | Some(value: T)

  /** The outcome of an operation that reports an error instead of throwing it. */
  datatype Result<+R, +E> = Success(value: R) | Failure(error: E)
}
