/** The optional and error-carrying wrappers shared by the whole model. */
module Wrappers {

  /** An optional value: a slot that may be empty, a cell that may be unset. */
  datatype Option<+T> = None | Some(value: T)

  /** Either a produced value or an error value. */
  datatype Result<+T, +E> = Ok(value: T) | Err(error: E)
}
