/** Option and Result, for JavaScript's `null`/`undefined` and for settled promises. */
module Wrappers {

  datatype Option<+T> = None | Some(value: T)

  datatype Result<+T, +E> = Ok(value: T) | Err(error: E)
}
