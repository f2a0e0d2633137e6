/** Optional values, and results that carry an error code. */
module Wrappers {

  datatype Option<+T> = None | Some(value: T)

  datatype Result<T> = Ok(value: T) | Err(code: string)
}
