/** Optional values and results with an error, used for the lookups and the
    raised exceptions of the pain recorder. */
module Outcomes {

  datatype Option<+T> = None | Some(value: T)

  datatype Result<+T, +E> = Ok(value: T) | Err(error: E)
}
