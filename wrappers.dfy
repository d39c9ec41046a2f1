/** Wrappers shared by every module of the model. */
module Wrappers {

  /** `Some(v)` for a JavaScript value, `None` for `null` (or `undefined`). */
  datatype Option<+T> = None | Some(value: T)

  /** A value, or the error an operation throws. */
  datatype Result<+T, +E> = Ok(value: T) | Err(error: E)

  /** Completion of an operation that returns nothing: normal, or throwing `error`. */
  datatype Outcome<+E> = Pass | Fail(error: E)
}
