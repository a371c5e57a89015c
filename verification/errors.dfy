/** The failure values of the capture add-on's geometry code. */
module Errors {

  /** Python's ValueError, carrying the message the source raises it with. */
  datatype Error = ValueError(message: string)

  /** A value, or the exception a Python function would have raised instead. */
  datatype Result<+T> = Ok(value: T) | Err(error: Error)
}
