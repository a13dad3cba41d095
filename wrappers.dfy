/** Failure-carrying wrappers shared by every module of the model. */
module Wrappers {

  datatype Option<+T> = None | Some(value: T)

  /** The outcome of an operation that the Python code can abort with an exception. */
  datatype Result<+T, +E> = Ok(value: T) | Err(error: E)
}
