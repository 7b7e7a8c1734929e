/** Optional values and success-or-error results, used wherever the Go code
    returns nil or an `error` alongside a value. */
module Wrappers {

  datatype Option<+T> = None | Some(value: T)

  datatype Result<+T, +E> = Ok(value: T) | Err(error: E)
}
