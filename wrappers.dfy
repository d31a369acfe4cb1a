/** Optional values and the outcome of an operation that may raise an error. */
module Wrappers {

  /** A value that may be absent (`null` / `undefined` in the client). */
  datatype Option<+T> = None | Some(value: T)

  /** The outcome of an operation: a value, or the message of the `Error` it throws. */
  datatype Result<+T> = Ok(value: T) | Err(message: string)
}
