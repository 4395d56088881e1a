/** Optional values and success/failure results, shared by every module. */
module Wrappers {

  /** `None` stands for JavaScript's `null` (or a missing value). */
  datatype Option<+T> = None | Some(value: T)

  /** The outcome of an operation that either returns a value or throws an error. */
  datatype Result<+R, +E> = Success(value: R) | Failure(error: E)
}
