/** Optional values and results with an error, used wherever the source
    tests for an absent attribute, returns None or raises. */
module Wrappers {

  datatype Option<+T> = None | Some(value: T)

  datatype Result<+T, +E> = Ok(value: T) | Err(error: E)
}
