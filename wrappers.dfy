/** Optional values and fallible results, used for the service's "null" returns and for errors. */
module Wrappers {

  /** `None` stands for JavaScript's null or undefined. */
  datatype Option<+T> = None | Some(value: T)

  datatype Result<+R, +E> = Success(value: R) | Failure(error: E)
}
