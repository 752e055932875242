/** Option and Result, for JavaScript's `undefined`/`null` values and thrown errors. */
module Wrappers {
  datatype Option<T> = None | Some(value: T)

  datatype Result<T, E> = Ok(value: T) | Err(error: E)
}
