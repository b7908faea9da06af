/** Optional values and success/failure results, used for JavaScript's
    `null` sentinels and for `throw`. */
module Wrappers {

  datatype Option<T> = None | Some(value: T)

  datatype Result<T, E> = Ok(value: T) | Err(error: E)
}
