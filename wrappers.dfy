/** Failure-carrying values shared by every module of the model. */
module Wrappers {

  /** A value that may be absent (Go's nil, or a second `ok` result that is false). */
  datatype Option<+T> = None | Some(value: T)

  /** A value or the error that prevented it (Go's `(T, error)` pair). */
  datatype Result<+T, +E> = Ok(value: T) | Err(error: E)
}
