/** Failure-carrying result types shared by the portal modules: a Java method that
    may return null becomes an Option, one that may throw becomes a Result or Outcome. */
module Wrappers {

  datatype Option<+T> = None | Some(value: T)

  datatype Result<+R, +E> = Success(value: R) | Failure(error: E)

  /** The outcome of a Java `void` method that may throw. */
  datatype Outcome<+E> = Pass | Fail(error: E)
}
