/** Optional values and results with an error side, used for the fields a FIT
    message may leave unset and for the ways a conversion can fail. */
module Wrappers {

  datatype Option<+T> = None | Some(value: T)

  datatype Result<+T, +E> = Ok(value: T) | Err(error: E)
}
