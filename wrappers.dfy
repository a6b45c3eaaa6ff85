/** Option, Result and Outcome: the model's stand-ins for nil and for raised exceptions. */
module Wrappers {

  datatype Option<+T> = None | Some(value: T)

  datatype Result<+T, +E> = Success(value: T) | Failure(error: E)

  /** A step that either completes or raises `error`. */
  datatype Outcome<+E> = Pass | Fail(error: E)
}
