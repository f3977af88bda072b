/** Optional values and results with an error, as returned by the model's operations. */
module Wrappers {

  /** Python's `None` or a present value. */
  datatype Option<+T> = None | Some(value: T)

  /** The value of a call, or the exception it raises. */
  datatype Result<+R, +E> = Success(value: R) | Failure(error: E)
}
