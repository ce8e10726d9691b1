/** Optional values (Ruby's `nil` versus a value) and results (a value versus a raised error). */
module Wrappers {

  datatype Option<+T> = None | Some(value: T)

  datatype Result<+T, +E> = Success(value: T) | Failure(error: E)
}
