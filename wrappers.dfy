/** Option and Result values for the Python code's `None` returns and raised exceptions. */
module Wrappers {

  datatype Option<+T> = None | Some(value: T)

  /** `Failure` stands for an exception the Python code raises (or lets propagate). */
  datatype Result<+R, +E> = Success(value: R) | Failure(error: E)
}
