/** Option and Result, used for Python's unbound local variables and raised exceptions. */
module Wrappers {

  /** `None` stands for a Python local that was never assigned. */
  datatype Option<+T> = None | Some(value: T)

  /** `Failure` stands for an exception that escapes the call. */
  datatype Result<+R, +E> = Success(value: R) | Failure(error: E)
}
