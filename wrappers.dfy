/** Option and Result, for the values Python leaves as None and for raised exceptions. */
module Wrappers {

  datatype Option<+T> = None | Some(value: T)

  datatype Result<+T, +E> = Ok(value: T) | Err(error: E)

  /** The empty value a successful call without a result returns. */
  datatype Unit = Unit
}
