/** Failure-compatible wrappers used for the error paths of the oracle. */
module Wrappers {

  /** A value that may be missing (a dictionary lookup that finds nothing). */
  datatype Option<+T> = None | Some(value: T)

  /** A value or the error that stopped the computation producing it. */
  datatype Result<+T, +E> = Ok(value: T) | Err(error: E)
}
