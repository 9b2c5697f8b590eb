/** Option and Result, the value-level stand-ins for Go's `(T, error)` returns. */
module Wrappers {
  datatype Option<+T> = None | Some(value: T)

  datatype Result<+T, +E> = Ok(value: T) | Err(error: E)
}
