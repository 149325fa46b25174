/** Option and Result values standing for Python's `None` and raised exceptions. */
module Wrappers {

  datatype Option<+T> = None | Some(value: T)

  /** `Err` carries the text `str(e)` of the exception the Python code raises. */
  datatype Result<+T> = Ok(value: T) | Err(error: string)
}
