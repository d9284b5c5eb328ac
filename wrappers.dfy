/** Optional values and results with an error, used for the C code's NULL returns. */
module Wrappers {

  /** A value that may be absent; `None` stands for NULL. */
  datatype Option<+T> = None | Some(value: T)

  /** Either a value or the reason it could not be produced. */
  datatype Result<+T, +E> = Ok(value: T) | Err(error: E)
}
