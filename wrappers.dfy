/** Optional values and results, used for the absent fields of a request body,
    the "no reading yet" answer and the outcome of validating a payload. */
module Wrappers {

  datatype Option<+T> = None | Some(value: T)

  datatype Result<+R, +E> = Ok(value: R) | Err(error: E)
}
