/** Option and Result, used for Python's `None` and for exceptions that cross a call. */
module Wrappers {

  datatype Option<+T> = None | Some(value: T)

  /** `Err` carries the text `str(e)` of the exception that was raised. */
  datatype Result<+T> = Ok(value: T) | Err(message: string)
}
