/** Failure-compatible wrappers shared by the model's modules. */
module Wrappers {

  /** A value that may be absent (a missing row, a rejected remote call, an unparseable reply). */
  datatype Option<+T> = None | Some(value: T)

  /** The outcome of a step that may fail with an error describing why. */
  datatype Result<+T, +E> = Success(value: T) | Failure(error: E)
}
