/** Failure-carrying result types. The C# code reports failures by throwing;
    the model returns them instead, so every error path stays visible. */
module Wrappers {

  /** A reference that may be null. */
  datatype Option<+T> = None | Some(value: T)

  /** A value, or the exception that was thrown instead. */
  datatype Result<+T, +E> = Ok(value: T) | Err(error: E)

  /** A `void` operation that either returns normally or throws. */
  datatype Outcome<+E> = Pass | Fail(error: E)
}
