/** Failure-carrying wrappers shared by the other modules. */
module Wrappers {

  /** A Python attribute that may hold `None`. */
  datatype Option<+T> = None | Some(value: T)

  /** A value, or the error that stopped its construction. */
  datatype Result<+T, +E> = Ok(value: T) | Err(error: E)

  /** A step that either completes or stops with an error. */
  datatype Outcome<+E> = Pass | Fail(error: E)
}
