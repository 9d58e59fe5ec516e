/** The optional and failure-carrying values the rest of the model uses. */
module Wrappers {

  /** A value that may be absent: JavaScript's `null`/`undefined` versus a present value. */
  datatype Option<+T> = None | Some(value: T)

  /** The outcome of a computation that can throw. */
  datatype Result<+R, +E> = Success(value: R) | Failure(error: E)
}
