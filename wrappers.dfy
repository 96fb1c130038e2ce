/** Option and Result values used for nullable query results and typed errors. */
module Wrappers {

  /** A value that may be absent, as a nullable column or a scalar query with no row. */
  datatype Option<+T> = None | Some(value: T)

  /** Either a value or the error that aborted the computation. */
  datatype Result<+T, +E> = Ok(value: T) | Err(error: E)
}
