/** Optional values and results, used for the form's optional field and for validation outcomes. */
module Wrappers {

  /** A value that may be absent (`undefined` in the form). */
  datatype Option<+T> = None | Some(value: T)

  /** Either a value or an error. */
  datatype Result<+T, +E> = Ok(value: T) | Err(error: E)
}
