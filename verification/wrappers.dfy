/** Failure-carrying values used across the model: a JavaScript `throw` becomes an
    `Err`/`Fail` carrying the message text of the `Error` the source raises. */
module Wrappers {

  datatype Option<+T> = None | Some(value: T)

  /** The result of an operation that either returns a value or throws. */
  datatype Result<+T> = Ok(value: T) | Err(error: string)

  /** The result of an operation that returns nothing or throws. */
  datatype Outcome = Pass | Fail(error: string)
}
