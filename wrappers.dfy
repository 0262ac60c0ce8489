/** Option and Result, for nullable cells and for operations that can fail. */
module Wrappers {

  /** A table cell that may be missing (a database NULL, a pandas NaN). */
  datatype Option<+T> = None | Some(value: T)

  /** The outcome of an operation that either produces a value or raises an error. */
  datatype Result<+R, +E> = Success(value: R) | Failure(error: E)
}
