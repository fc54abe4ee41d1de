/** Option, Result and Outcome: the `null`s and the thrown errors of the UI code, as values. */
module Wrappers {

  /** A value or its absence (`T | null` in the source). */
  datatype Option<+T> = None | Some(value: T)

  /** A computed value, or the error the source would throw instead. */
  datatype Result<+T, +E> = Ok(value: T) | Err(error: E)

  /** Success of an operation that computes nothing, or the error it would throw. */
  datatype Outcome<+E> = Pass | Fail(error: E)
}
