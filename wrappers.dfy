/** Optional values and pass/fail outcomes, standing in for JavaScript's
    `undefined` and for an exception thrown out of a handler. */
module Wrappers {

  /** `None` plays the role of `undefined`. */
  datatype Option<+T> = None | Some(value: T)

  /** `Failure` stands for an exception that escapes the call. */
  datatype Result<+T, +E> = Success(value: T) | Failure(error: E)

  /** `Fail` stands for an exception that escapes the call. */
  datatype Outcome<+E> = Pass | Fail(error: E)
}
