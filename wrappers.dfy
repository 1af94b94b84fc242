/** The optional-value and success-or-error types used for the source's `None` and its exceptions. */
module Wrappers {

  datatype Option<T> = None | Some(value: T)

  /** `Ok` is a normal return; `Err` carries the text of an exception the source raises. */
  datatype Result<T> = Ok(value: T) | Err(error: string)
}
