/** Option and Result, used for absent values and for failures that the handlers turn into replies. */
module Wrappers {
  datatype Option<+T> = None | Some(value: T)

  datatype Result<+T, +E> = Ok(value: T) | Err(error: E)
}
