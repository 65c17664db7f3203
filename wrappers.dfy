/** Failure-carrying results: the model's stand-in for Python's `None` returns and raised exceptions. */
module Wrappers {

  datatype Option<+T> = None | Some(value: T)

  datatype Result<+R, +E> = Success(value: R) | Failure(error: E)

  /** A step that either completes or raises `error`, with no value of its own. */
  datatype Outcome<+E> = Pass | Fail(error: E)
}
