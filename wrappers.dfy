/** Option and Result, the shapes used for absent values and for calls that can fail. */
module Wrappers {

  datatype Option<+T> = None | Some(value: T)

  /** The outcome of a call that may raise: the value it returned or the message of what it raised. */
  datatype Result<+R, +E> = Success(value: R) | Failure(error: E)
}
