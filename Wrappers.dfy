/** Optional values and results with an error side, used wherever the
    original code has a nullable value or an error path. */
module Wrappers {

  datatype Option<+T> = None | Some(value: T)

  datatype Result<+T, +E> = Ok(value: T) | Err(error: E)
}
