/** Optional values and outcomes that carry the message an exception would. */
module Wrappers {

  datatype Option<T> = None | Some(value: T)

  /** A value, or the message of the `Error` the source throws instead. */
  datatype Result<T> = Success(value: T) | Failure(message: string)
  {
    predicate IsFailure() {
      Failure?
    }
  }

  /** The outcome of an operation that returns nothing or throws. */
  datatype Outcome = Pass | Fail(message: string)
}
