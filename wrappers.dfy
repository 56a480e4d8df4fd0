/** Optional values and results with an error value, for lookups that can fail
    and for the guard-and-throw checks of the configuration code. */
module Wrappers {

  datatype Option<+T> = None | Some(value: T)

  datatype Result<+T, +E> = Ok(value: T) | Err(error: E)
}
