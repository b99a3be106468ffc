/** Optional values and results with an error, used for the source's "not found",
    "re-prompt" and rejection paths. */
module Wrappers {

  datatype Option<+T> = None | Some(value: T)

  datatype Result<+T, +E> = Ok(value: T) | Err(error: E)
}
