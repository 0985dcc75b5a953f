/** Optional values and error-carrying results used throughout the model. */
module Wrappers {

  /** `undefined` versus a present value. */
  datatype Option<+T> = None | Some(value: T)

  /** A computation that either yields a value or throws. */
  datatype Result<+R, +E> = Success(value: R) | Failure(error: E)
}
