/** Option and Result, the two failure-carrying shapes the model uses. */
module Wrappers {

  datatype Option<+T> = None | Some(value: T)

  /** A call that either returns a value or raises `error`. */
  datatype Result<+T, +E> = Ok(value: T) | Err(error: E)
}
