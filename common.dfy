/** Small value wrappers shared by the container and the utilities: optional values,
    the Python exception classes the modelled code raises, and results carrying them. */
module Common {

  /** A value that may be absent (Python's `None`). */
  datatype Option<+T> = None | Some(value: T)

  /** The exception classes raised by the container and the utilities. */
  datatype Error = AssertionError | TypeError | IndexError | KeyError | ValueError

  /** A computation that returns a value or raises. */
  datatype Result<+T> = Ok(value: T) | Err(error: Error)

  /** A check that returns normally or raises. */
  datatype Outcome = Pass | Fail(error: Error)
}
