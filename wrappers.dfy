/** Optional values and the outcome of an operation that may fail. */
module Wrappers {

  /** Python's `Optional[T]`: `None` or a present value. */
  datatype Option<+T> = None | Some(value: T)

  /** A call that either returns a value or raises an exception whose text is `error`. */
  datatype Result<+T, +E> = Ok(value: T) | Err(error: E)
}
