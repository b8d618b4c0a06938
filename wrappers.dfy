/** Optional values and results with an error, for the Python `None` returns
    and the exceptions of the modelled code. */
module Wrappers {

  datatype Option<T> = None | Some(value: T)

  datatype Result<T, E> = Ok(value: T) | Err(error: E)
}
