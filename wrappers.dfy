/** Option and Result, the usual failure-carrying datatypes. */
module Wrappers {

  datatype Option<+T> = None | Some(value: T)

  /** The outcome of an operation that either succeeds with a value or raises an error. */
  datatype Result<+R, +E> = Ok(value: R) | Err(error: E)
}
