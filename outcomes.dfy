/** The optional value and the success-or-error value the other modules return. */
module Outcomes {

  /** A value that may be missing (`null` or `undefined` in the source). */
  datatype Option<+T> = None | Some(value: T)

  /** The outcome of an operation that may throw: its value, or what it threw. */
  datatype Result<+T, +E> = Ok(value: T) | Err(error: E)
}
