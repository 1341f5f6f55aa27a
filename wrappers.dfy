/** Option and Result values shared by the swagger model. */
module Wrappers {

  /** An optional value: Python's `None` or a present value. */
  datatype Option<+T> = None | Some(value: T)

  /** The outcome of an operation that may raise: a value or the exception raised. */
  datatype Result<+T, +E> = Ok(value: T) | Err(error: E)
}
