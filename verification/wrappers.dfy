/** Option and Result, the two failure-carrying wrappers the rest of the model uses. */
module Wrappers {

  datatype Option<+T> = None | Some(value: T)

  /** The outcome of a step that either produces a value or raises an exception
      carrying a message. */
  datatype Result<+T, +E> = Ok(value: T) | Err(error: E)
}
