/** Optional values and success/failure results, used for dictionary lookups
    and for the translator's one failure mode. */
module Wrappers {

  datatype Option<+T> = None | Some(value: T)

  datatype Result<+T, +E> = Success(value: T) | Failure(error: E)
}
