/** Optional values and results with an error, in place of the source's
    `undefined`-or-value fields and its thrown exceptions. */
module Wrappers {

  datatype Option<+T> = None | Some(value: T)

  datatype Result<+R, +E> = Ok(value: R) | Err(error: E)
}
