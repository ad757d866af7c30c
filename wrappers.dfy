/** Python's `None`-or-value and value-or-exception, as datatypes. */
module Wrappers {

  /** A value that Python may hold as `None`. */
  datatype Option<+T> = None | Some(value: T)

  /** The outcome of a computation that either returns a value or raises. */
  datatype Result<+T, +E> = Success(value: T) | Failure(error: E)
}
