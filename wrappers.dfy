/** Failure-compatible result types shared by the model. */
module Wrappers {

  datatype Option<+T> = None | Some(value: T)

  /** A value, or the message of the exception the source would throw instead. */
  datatype Result<+T> = Ok(value: T) | Err(error: string)

  /** The outcome of an operation that returns nothing but may throw. */
  datatype Outcome = Pass | Fail(error: string)

  /** The message `casadi_error("not_implemented")` carries (file and line prefix not modelled). */
  const NotImplemented: string := "not_implemented"
}
