/** Option and Result: the model's stand-ins for Python's None and for raised exceptions. */
module Wrappers {

  datatype Option<+T> = None | Some(value: T)

  /** A computation that either yields a value or raises; the error carries the exception text. */
  datatype Result<+T, +E> = Success(value: T) | Failure(error: E)
}
