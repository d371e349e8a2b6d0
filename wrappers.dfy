/** Optional values and results with an error code, as the Python code uses
    `None` and raised HTTP errors. */
module Wrappers {

  datatype Option<+T> = None | Some(value: T)

  datatype Result<+T> = Ok(value: T) | Err(status: int)
}
