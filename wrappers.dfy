/** Failure-carrying values: an absent value, and a value or an error message. */
module Wrappers {

  datatype Option<+T> = None | Some(value: T)

  /** The outcome of a computation that the original code may abandon by raising an
      exception; `Err` carries the exception's message (what `str(e)` would give). */
  datatype Result<+T> = Ok(value: T) | Err(msg: string)
}
