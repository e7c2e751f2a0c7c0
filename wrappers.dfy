/** Optional values, results, and the Python exceptions that the helper lets escape. */
module Wrappers {

  datatype Option<T> = None | Some(value: T)

  /** An exception as it reaches the caller of a helper function. */
  datatype Error =
    | ValueError              // range() called with a step of 0
    | IndexError              // data[0] evaluated on an empty list
    | TypeError               // ", ".join(None) or list(None)
    | KeyError(key: string)   // a frame looked up by a column label it does not have
    | AttributeError          // .lower() applied to a missing environment variable
    | Raised(message: string) // a database error re-raised unchanged by a bare `raise`
    | Wrapped(message: string)// a database error re-raised as `Exception(e)`

  /** What a helper function returns, or the exception it raises. */
  datatype Result<T> = Ok(value: T) | Err(error: Error)
}
