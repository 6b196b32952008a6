/** Failure-carrying values: `Option` for a value that may be absent and
    `Result` for a Go `(value, error)` pair. */
module Wrappers {

  datatype Option<+T> = None | Some(value: T)

  datatype Result<+T, +E> = Ok(value: T) | Err(error: E)
}
