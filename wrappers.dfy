/** Failure-carrying values used by the request handlers and the key-value store. */
module Wrappers {

  /** Some(value) when a value is present, None otherwise. */
  datatype Option<+T> = None | Some(value: T)

  /** Success(value), or Failure(error) carrying why the value is missing. */
  datatype Result<+T, +E> = Success(value: T) | Failure(error: E)
}
