/** Option and Result values shared by the modules of this model. */
module Wrappers {

  datatype Option<+T> = None | Some(value: T)

  /** The outcome of an endpoint or request: a value, or an error the caller sees. */
  datatype Result<+T, +E> = Ok(value: T) | Err(error: E)
}
