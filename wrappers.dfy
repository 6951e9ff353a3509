/** The result and option types shared by every module of the model. */
module Wrappers {

  datatype Option<+T> = None | Some(value: T)

  /** The outcome of an operation that the source can abort with an exception;
      the error carries the exception's message. */
  datatype Result<+T> = Ok(value: T) | Err(error: string)
}
