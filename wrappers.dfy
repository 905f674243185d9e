/** Failure-carrying values used throughout the model. A Go `error` is
    represented by its message text. */
module Wrappers {

  /** A value that may be absent (a nil pointer, a missing bucket). */
  datatype Option<+T> = None | Some(value: T)

  /** Either a value or the message of the Go error returned instead. */
  datatype Result<+T> = Ok(value: T) | Err(error: string)
}
