/** Results of operations that may raise. */
module Wrappers {
  datatype Option<+T> = None | Some(value: T)

  /** A returned value, or the message of the exception raised instead. */
  datatype Result<+T> = Ok(value: T) | Err(error: string)
}
