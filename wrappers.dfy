/** The optional values and outcomes shared by the model's modules. */
module Wrappers {

  /** A value that may be absent: Python's `None` or a present value. */
  datatype Option<+T> = None | Some(value: T)

  /** The outcome of an operation that can raise: a returned value or the exception raised. */
  datatype Result<+R, +E> = Success(value: R) | Failure(error: E)
}
