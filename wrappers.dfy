/** Option and Result values: how the model writes JavaScript's `undefined` results and thrown errors. */
module Wrappers {

  datatype Option<+T> = None | Some(value: T)

  /** A computation that either produced a value or threw an error with a message. */
  datatype Result<+T> = Ok(value: T) | Err(message: string)
}
