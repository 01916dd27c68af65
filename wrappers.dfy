/** Option, Result and Outcome shared by the model. */
module Wrappers {

  datatype Option<+T> = None | Some(value: T)

  datatype Result<+T, +E> = Ok(value: T) | Err(error: E)

  /** The outcome of a step that produces no value: it either passes or fails with an error. */
  datatype Outcome<+E> = Pass | Fail(error: E)
}
