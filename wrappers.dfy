/** Option and Result, standing in for Python's `None` and for raised exceptions. */
module Wrappers {

  datatype Option<+T> = None | Some(value: T)

  /** `Err` is a raised `ValueError` (or `AssertionError`); nothing after it runs. */
  datatype Result<+T, +E> = Ok(value: T) | Err(error: E)
}
