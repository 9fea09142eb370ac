/** Option and Result values shared by the modules of this model. */
module Wrappers {

  /** A value that may be absent, such as an attribute that was never set. */
  datatype Option<+T> = None | Some(value: T)

  /** The outcome of a step that either yields a value or fails with an error. */
  datatype Result<+T, +E> = Ok(value: T) | Err(error: E)
}
