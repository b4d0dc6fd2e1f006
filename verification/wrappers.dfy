/** Optional values and success/failure results, the two shapes the builder's
    configuration and its `build()` entry point use. */
module Wrappers {

  /** A value that may be absent (Swift's `Optional`). */
  datatype Option<+T> = None | Some(value: T)

  /** Swift's `Result<Success, Failure>`. */
  datatype Result<+R, +E> = Success(value: R) | Failure(error: E)
}
