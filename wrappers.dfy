/** Failure-carrying datatypes shared by every module of the model. */
module Wrappers {

  datatype Option<+T> = None | Some(value: T)

  /** The value of a fallible Rust call: `Ok(value)` or `Err(error)`. */
  datatype Result<+T, +E> = Ok(value: T) | Err(error: E)

  /** A fallible call that returns `()` on success. */
  datatype Outcome<+E> = Pass | Fail(error: E)
}
