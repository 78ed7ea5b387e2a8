/** Optional values and results with an error, used for the fields a JSON record may lack
    and for the runs that end in an uncaught exception. */
module Wrappers {

  datatype Option<+T> = None | Some(value: T)

  datatype Result<+T, +E> = Ok(value: T) | Err(error: E)
}
