/** A success-or-failure value, used where the source raises an exception. */
module Wrappers {
  datatype Result<+T, +E> = Success(value: T) | Failure(error: E)
}
