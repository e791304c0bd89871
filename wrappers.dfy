/** Optional values and the success-or-failure results that asynchronous calls deliver. */
module Wrappers {

  /** Swift's `T?`. */
  datatype Option<+T> = None | Some(value: T)

  /** What a network pipeline delivers: a decoded value, or a failure carrying the
      error's `localizedDescription`. */
  datatype Result<+T> = Success(value: T) | Failure(message: string)
}
