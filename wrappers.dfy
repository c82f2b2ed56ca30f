/** Failure-carrying values used where the Go code returns `(value, error)`. */
module Wrappers {

  /** A value that may be absent: a parse that failed, an error that did not happen. */
  datatype Option<+T> = None | Some(value: T)

  /** A value or the text of the error that replaced it. */
  datatype Result<+T> = Ok(value: T) | Err(error: string)
}
