/** Optional values and the outcome of an operation that may throw. */
module Wrappers {

  /** A value that may be absent: a Java reference that may be null, an empty Optional. */
  datatype Option<+T> = None | Some(value: T)

  /** The result of a Java call: a value, or the message of the exception it throws. */
  datatype Outcome<+T> = Ok(value: T) | Err(message: string)
}
