/** Optional values (the source's `T | null` and `field?: T`) and results of
    operations that can throw (the source's rejected promises). */
module Wrappers {

  datatype Option<+T> = None | Some(value: T)

  datatype Result<+T, +E> = Success(value: T) | Failure(error: E)
}
