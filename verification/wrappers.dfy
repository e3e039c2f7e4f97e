/** Optional values and results with an error, used for absent map keys,
    table lookups and lifecycle errors. */
module Wrappers {

  datatype Option<+T> = None | Some(value: T)

  datatype Result<+T, +E> = Ok(value: T) | Err(error: E)
}
