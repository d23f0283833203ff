/** The optional-value and value-or-error types shared by every module of the model. */
module Wrappers {

  /** A value that may be absent: Go's nil or SQL NULL. */
  datatype Option<+T> = None | Some(value: T)

  /** A value or the error that the Go code returns in its place. */
  datatype Result<+T, +E> = Ok(value: T) | Err(error: E)
}
