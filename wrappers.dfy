/** Option and Result, used where the source returns null or throws. */
module Wrappers {

  /** A value that may be missing (JavaScript `null`/`undefined`). */
  datatype Option<+T> = None | Some(value: T)

  /** The outcome of an operation that may throw. */
  datatype Result<+T, +E> = Ok(value: T) | Err(error: E)
}
