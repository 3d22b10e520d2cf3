/** Failure-compatible wrappers shared by the registry and the command factory.
    `Option` also stands for a Java reference that may be null. */
module Wrappers {

  /** A value that may be absent; `None` plays the part of Java's `null`. */
  datatype Option<+T> = None | Some(value: T)

  /** The outcome of an operation that may throw: the new value, or the error raised. */
  datatype Result<+R, +E> = Success(value: R) | Failure(error: E)
}
