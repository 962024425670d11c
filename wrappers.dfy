/** Option and Result, the two failure wrappers every other module uses. */
module Wrappers {

  /** A value that may be absent; stands for Python's `T | None`. */
  datatype Option<+T> = None | Some(value: T)

  /** The outcome of an operation that either returns a value or raises an error. */
  datatype Result<+R, +E> = Ok(value: R) | Err(error: E)
}
