/** Option, Result and Outcome: the error paths of the services as values. */
module Wrappers {

  datatype Option<+T> = None | Some(value: T)

  /** A route's answer: a value, or the HTTP error it raises. */
  datatype Result<+T, +E> = Ok(value: T) | Err(error: E)

  /** A check with no value of its own: it passes or fails with an error. */
  datatype Outcome<+E> = Pass | Fail(error: E)
}
