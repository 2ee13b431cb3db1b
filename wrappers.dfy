/** Option, Result and Outcome datatypes, used for the exceptions the bridge can raise. */
module Wrappers {

  datatype Option<+T> = None | Some(value: T)

  /** A computation that either produced a value or raised an error. */
  datatype Result<+T, +E> = Ok(value: T) | Err(error: E)

  /** The outcome of a handler that returns nothing but may raise. */
  datatype Outcome<+E> = Pass | Fail(error: E)
}
