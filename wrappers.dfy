/**
 * The optional value (Java's Optional and null, TypeScript's undefined) and
 * the outcome of an operation that may throw.
 */
module Wrappers {

  datatype Option<+T> = None | Some(value: T)

  datatype Result<+T, +E> = Success(value: T) | Failure(error: E)
}
