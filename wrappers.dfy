/** Error-carrying results, as the manager's operations return them. */
module Wrappers {

  /** A value of type T, or an error message; errors are plain strings. */
  datatype Result<+T> = Ok(value: T) | Err(error: string)
}
