/** Ruby's `nil`-or-value and value-or-exception results, as datatypes. */
module Wrappers {

  /** A value that may be Ruby's `nil`. */
  datatype Option<+T> = None | Some(value: T)

  /** The outcome of an operation that either returns a value or raises. */
  datatype Result<+T, +E> = Success(value: T) | Failure(error: E)
}
