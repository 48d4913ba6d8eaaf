/** Optional values (a TypeScript `T | undefined` or `T | null`) and results. */
module Wrappers {

  datatype Option<+T> = None | Some(value: T)

  datatype Result<+R, +E> = Success(value: R) | Failure(error: E)
}
