/** Optional values and results shared by every module of the model. */
module Wrappers {

  /** Python's `Optional[T]`: `None` or a present value. */
  datatype Option<+T> = None | Some(value: T)

  /** The outcome of an operation that may raise: a value or the exception it raised. */
  datatype Result<+R, +E> = Success(value: R) | Failure(error: E)
}
