/** Option and Result values: Python's `None` and the exceptions the source raises. */
module Wrappers {

  /** `None` or a present value. */
  datatype Option<+T> = None | Some(value: T)

  /** A returned value, or the message of a raised exception. */
  datatype Result<+R, +E> = Success(value: R) | Failure(error: E)
}
