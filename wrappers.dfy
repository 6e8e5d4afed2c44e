/** Optional values and the outcomes of calls that can raise. */
module Wrappers {

  datatype Option<+T> = None | Some(value: T)

  /** The outcome of a call that returns a value or raises with a message. */
  datatype Result<+T, +E> = Success(value: T) | Failure(error: E)

  /** The outcome of a call that returns nothing or raises with a message. */
  datatype Outcome<+E> = Pass | Fail(error: E)
}
