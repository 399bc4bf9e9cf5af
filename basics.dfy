/** Failure-carrying wrappers shared by the other modules. */
module Basics {

  /** An optional value. */
  datatype Option<+T> = None | Some(value: T)

  /** A value, or the error that replaced it (a raised exception in the server). */
  datatype Result<+T, +E> = Success(value: T) | Failure(error: E)
}
