/** Optional values and success-or-error outcomes, used where the TypeScript
    code returns `undefined` or answers with an error response. */
module Wrappers {

  /** A value that may be absent (`T | undefined` in the source). */
  datatype Option<+T> = None | Some(value: T)

  /** The outcome of an operation that either succeeds with a value or fails
      with an error (an HTTP error response in the source). */
  datatype Result<+T, +E> = Success(value: T) | Failure(error: E)
}
