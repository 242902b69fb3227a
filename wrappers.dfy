/** Optional values and results shared by the whole model. */
module Wrappers {

  /** A value that may be absent (JavaScript `undefined`/`null`, a nullable column). */
  datatype Option<+T> = None | Some(value: T)

  /** Either a value or a list of errors, as returned by a schema parse. */
  datatype Result<+T, +E> = Ok(value: T) | Err(errors: E)
}
