/** Failure-carrying datatypes shared by the model. */
module Wrappers {

  /** A value that may be absent, like Python's `Optional[...]`. */
  datatype Option<+T> = None | Some(value: T)

  /** Either a value or the error that was raised instead of producing it. */
  datatype Result<+T, +E> = Success(value: T) | Failure(error: E)
}
