/** Failure-carrying wrappers shared by the other modules. */
module Wrappers {

  /** An optional value: Python's `None` or a present value. */
  datatype Option<+T> = None | Some(value: T)

  /** Either a value or the error that aborted the computation (a raised exception). */
  datatype Result<+R, +E> = Success(value: R) | Failure(error: E)
}
