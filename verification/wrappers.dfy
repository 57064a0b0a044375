/** Optional values and call outcomes used across the model. */
module Wrappers {

  /** An optional value: the model's stand-in for a Java reference that may be null. */
  datatype Option<+T> = None | Some(value: T)

  /** Either a value or a failure: the model's stand-in for a call that may throw. */
  datatype Result<+R> = Success(value: R) | Failure(message: string)
}
