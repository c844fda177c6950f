/** Optional values and results with an error, standing for the null
    references and exceptions of the scanner. */
module Wrappers {

  datatype Option<T> = None | Some(value: T)

  datatype Result<T, E> = Success(value: T) | Failure(error: E)
}
