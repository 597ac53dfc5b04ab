/** Option and Result datatypes shared by the other modules. */
module Wrappers {

  /** A value that may be absent (Python's None). */
  datatype Option<+T> = None | Some(value: T)

  /** The outcome of a validation: the cleaned value or the errors found. */
  datatype Result<+T, +E> = Ok(value: T) | Err(error: E)
}
