/** The exceptions the containers raise, and the two shapes an operation's
    answer takes: a value or an exception (Result), or success or an
    exception (Outcome). */
module Errors {

  /** The Python exception classes raised by the containers. */
  datatype Error = IndexError | ValueError | TypeError

  /** The answer of an operation that returns a value or raises. */
  datatype Result<+T> = Ok(value: T) | Err(error: Error)

  /** The answer of an operation that returns None or raises. */
  datatype Outcome = Pass | Fail(error: Error)
}
