/** Optional values and results with an error message, shared by every module. */
module Wrappers {

  /** A value that may be absent: a missing JSON field, `NaN` from parsing, "not found". */
  datatype Option<+T> = None | Some(value: T)

  /** The outcome of a step that can fail with an error of type E (a thrown exception). */
  datatype Result<+T, +E> = Ok(value: T) | Err(error: E)
}
