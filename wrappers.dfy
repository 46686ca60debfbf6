/** Option and Result values standing for Python's `None` and for raised exceptions. */
module Wrappers {

  datatype Option<+T> = None | Some(value: T)

  datatype Result<+R, +E> = Ok(value: R) | Err(error: E)

  /** The outcome of a call whose only result is whether it raised. */
  datatype Outcome<+E> = Pass | Fail(error: E)
}
