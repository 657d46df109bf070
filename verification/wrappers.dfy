/** Optional values and results with an error, used where the source works with
    possibly-null references and thrown exceptions. */
module Wrappers {

  /** A value that may be absent, in place of a nullable reference. */
  datatype Option<+T> = None | Some(value: T)

  /** The outcome of an operation that may fail with an error instead of a value. */
  datatype Result<+T, +E> = Success(value: T) | Failure(error: E)
}
