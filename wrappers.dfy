/** Optional values and results, standing in for Python's None and for the
    exceptions the views turn into error responses. */
module Wrappers {

  datatype Option<+T> = None | Some(value: T)

  datatype Result<+T, +E> = Ok(value: T) | Err(error: E)
}
