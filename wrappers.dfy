/** Optional values and results with an error message, as used throughout the model. */
module Wrappers {

  datatype Option<+T> = None | Some(value: T)

  /** A Python function that either returns a value or raises ValueError with a message. */
  datatype Result<+T> = Success(value: T) | Failure(error: string)
}
