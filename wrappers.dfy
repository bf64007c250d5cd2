/** Option, Result and Outcome: the model's stand-ins for Python's None and for raised exceptions. */
module Wrappers {

  datatype Option<+T> = None | Some(value: T)

  /** A call that either returns a value or raises an exception. */
  datatype Result<+T, +E> = Success(value: T) | Failure(error: E)

  /** A call that returns nothing, or raises an exception. */
  datatype Outcome<+E> = Pass | Fail(error: E)
}
