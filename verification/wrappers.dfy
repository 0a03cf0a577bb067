/** Failure-compatible helper datatypes shared by every module of the model. */
module Wrappers {

  /** A value that may be missing: JavaScript's `undefined`/`null` for optional fields. */
  datatype Option<+T> = None | Some(value: T)

  /** Either a value or an error, for the steps of a handler that may fail. */
  datatype Result<+T, +E> = Ok(value: T) | Err(error: E)
}
