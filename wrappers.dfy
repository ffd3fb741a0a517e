/** Failure-carrying result types used by every component of the model. */
module Wrappers {

  datatype Option<+T> = None | Some(value: T)

  /** A computation that produced `value` or raised `error`. */
  datatype Result<+T, +E> = Success(value: T) | Failure(error: E)

  /** A computation that has no value of its own: it passed or raised `error`. */
  datatype Outcome<+E> = Pass | Fail(error: E)
}
