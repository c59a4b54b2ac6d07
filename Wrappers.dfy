/** Option and Result values, used where the Go code returns `(x, ok)` or `(x, err)`. */
module Wrappers {

  datatype Option<+T> = None | Some(value: T)

  datatype Result<+T, +E> = Ok(value: T) | Err(error: E)
}
