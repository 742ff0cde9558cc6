/** Option and Result values shared by the modules of this model. */
module Wrappers {

  /** A value that may be absent: Ruby's `nil`, JavaScript's `undefined`/`null`. */
  datatype Option<+T> = None | Some(value: T)

  /** The outcome of an operation that can fail with an error of type E. */
  datatype Result<+R, +E> = Success(value: R) | Failure(error: E)
}
