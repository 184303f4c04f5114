/** Optional values and results with an error, as returned by the adapter's operations. */
module Wrappers {

  /** A value that may be missing: Python's `None` or a real value. */
  datatype Option<+T> = None | Some(value: T)

  /** The outcome of an operation that either returns a value or raises an error. */
  datatype Result<+T, +E> = Ok(value: T) | Err(error: E)
}
