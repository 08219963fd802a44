/** The outcome of a step that the source can abort with an exception. */
module Wrappers {

  datatype Result<+T, +E> = Ok(value: T) | Err(error: E)
}
