/** Failure-carrying result types shared by the provider and the webhook model. */
module Wrappers {

  datatype Option<+T> = None | Some(value: T)

  /** The value of an operation that returns something, or the exception it throws. */
  datatype Result<+T, +E> = Success(value: T) | Failure(error: E)

  /** The outcome of an operation that returns nothing (a plain `Task`), or the exception it throws. */
  datatype Outcome<+E> = Pass | Fail(error: E)
}
