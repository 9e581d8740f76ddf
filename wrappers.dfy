/** Option and Result, used for JavaScript's "value or nothing" and "value or thrown error". */
module Wrappers {

  datatype Option<+T> = None | Some(value: T)

  /** The outcome of an operation that either yields a value or throws an Error with a message. */
  datatype Result<+T> = Ok(value: T) | Err(error: string)
}
