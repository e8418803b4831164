/** Optional values and results with an error, used for JavaScript's
    `undefined`/`null`/`NaN` and for exceptions thrown by the publisher. */
module Wrappers {

  datatype Option<+T> = None | Some(value: T)

  datatype Result<+T, +E> = Ok(value: T) | Err(error: E)
}
