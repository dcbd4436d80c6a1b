/** Option and Result, standing in for Python's `None` and for raised exceptions. */
module Wrappers {

  datatype Option<T> = None | Some(value: T)

  /** `Err` carries the message of the exception the source would raise. */
  datatype Result<T> = Ok(value: T) | Err(error: string)
}
