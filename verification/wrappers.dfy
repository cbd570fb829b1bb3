/** Failure-carrying values shared by the other modules. */
module Wrappers {

  /** A value that may be absent: JavaScript's `undefined`, `null` or `NaN`. */
  datatype Option<+T> = None | Some(value: T)

  /** The outcome of a validation: the accepted value or the reasons it was refused. */
  datatype Result<+R, +E> = Ok(value: R) | Err(error: E)
}
