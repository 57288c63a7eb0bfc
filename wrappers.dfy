/** Option and Result, shaped like Rust's own: the model's error paths are
    values, never preconditions. */
module Wrappers {

  datatype Option<+T> = None | Some(value: T)

  datatype Result<+T, +E> = Ok(value: T) | Err(error: E)
}
