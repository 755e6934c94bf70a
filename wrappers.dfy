/** Failure-compatible wrappers: a value that may be absent (Java's null) and
    the outcome of an operation that may throw. */
module Wrappers {

  datatype Option<+T> = None | Some(value: T)

  /** The exceptions the modelled code throws. */
  datatype Exception = IllegalArgumentException(message: string)

  /** A void Java method either returns normally or throws. */
  datatype Outcome = Pass | Fail(error: Exception)
}
