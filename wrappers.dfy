/** Option and Result, the two failure-carrying shapes used across the model. */
module Wrappers {

  /** Python's `None` (or a value that is absent) versus a present value. */
  datatype Option<+T> = None | Some(value: T)

  /** The value a Python function returns, or the exception it raises. */
  datatype Result<+T, +E> = Success(value: T) | Failure(error: E)
}
