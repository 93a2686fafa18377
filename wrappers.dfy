/** Option and Result, used for Ruby's nil and for rescued exceptions. */
module Wrappers {

  datatype Option<+T> = None | Some(value: T)

  /** The outcome of a step that may raise: `Err` carries the exception message. */
  datatype Result<+T> = Ok(value: T) | Err(message: string)
}
