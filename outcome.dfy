/** Optional values and results of operations that may fail. */
module Outcome {

  datatype Option<T> = None | Some(value: T)

  /** A failure carries the message the application would show or log. */
  datatype Result<T> = Success(value: T) | Failure(error: string)
}
