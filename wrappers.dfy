/** Small failure-carrying datatypes shared by the models. */
module Wrappers {
  /** A value that may be absent (Go's zero value or a nil result). */
  datatype Option<T> = None | Some(value: T)

  /** A value or the error that replaced it (Go's `(T, error)` return pair). */
  datatype Result<T, E> = Ok(value: T) | Err(error: E)

  /** The outcome of a call that returns only an `error`: nil or an error. */
  datatype Outcome<E> = Pass | Fail(error: E)
}
