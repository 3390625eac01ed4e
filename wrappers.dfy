/** Option and Result values shared by every module of the model. */
module Wrappers {

  /** An optional value: Python's `None` or a present value. */
  datatype Option<+T> = None | Some(value: T)

  /** A value, or the error that the source would raise instead of returning one. */
  datatype Result<+T, +E> = Ok(value: T) | Err(error: E)
}
