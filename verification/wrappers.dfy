/** Option and Result, for values that may be absent and for operations that may raise. */
module Wrappers {

  datatype Option<+T> = None | Some(value: T)

  /** Ok carries the value an operation returns; Err the exception it raises instead. */
  datatype Result<+T, +E> = Ok(value: T) | Err(error: E)
}
