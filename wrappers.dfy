/** Optional values, for the source's null pointers, `std::optional`, missing
    map entries and JavaScript `null`/`undefined`. */
module Wrappers {

  datatype Option<+T> = None | Some(value: T)

  /** A value, or the error the source reports (an exception or an error message). */
  datatype Result<+T> = Ok(value: T) | Err(message: string)
}
