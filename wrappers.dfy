/** Option and Result values used for Python's `None` and for calls that may raise. */
module Wrappers {

  datatype Option<+T> = None | Some(value: T)

  /** The outcome of a call that either returns a value or raises with a message. */
  datatype Result<+R> = Success(value: R) | Failure(error: string)
}
