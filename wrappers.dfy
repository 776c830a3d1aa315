/** Option and Result, used for Go's nil pointers and for calls that return an error. */
module Wrappers {

  datatype Option<+T> = None | Some(value: T)

  /** The result of a call that returns a value or an error. */
  datatype Result<+T> = Ok(value: T) | Err(error: string)
}
