/** Optional values and results with an error, used for the listing record's
    nullable columns and for the context hook's thrown error. */
module Wrappers {

  datatype Option<+T> = None | Some(value: T)

  datatype Result<+R, +E> = Success(value: R) | Failure(error: E)
}
