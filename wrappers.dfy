/** Optional values and results carrying an error message, as Go's
    `(value, ok)` and `(value, error)` return pairs are used in this program. */
module Wrappers {

  datatype Option<+T> = None | Some(value: T)

  /** `Err` carries the text that Go's `error.Error()` would return. */
  datatype Result<+T> = Ok(value: T) | Err(error: string)
}
