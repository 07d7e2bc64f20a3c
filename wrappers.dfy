/** `Option` and `Result`: the model's stand-ins for C# `null` and for exceptions. */
module Wrappers {

  /** A value that may be absent (a C# reference that may be null, a `TryX` that may fail). */
  datatype Option<+T> = None | Some(value: T)

  /** The outcome of an operation that either yields a value or raises an error. */
  datatype Result<+R, +E> = Success(value: R) | Failure(error: E)
}
