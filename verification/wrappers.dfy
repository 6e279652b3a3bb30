/** Failure-compatible wrappers used across the model: Java `null` becomes `None`,
    a thrown exception becomes `Failure`/`Fail`. */
module Wrappers {

  /** A value that Java may hold as `null`. */
  datatype Option<+T> = None | Some(value: T)

  /** The outcome of a constructor or factory that may throw. */
  datatype Result<+T, +E> = Success(value: T) | Failure(error: E)

  /** The outcome of a setter that may throw and otherwise returns the builder itself. */
  datatype Outcome<+E> = Pass | Fail(error: E)
}
