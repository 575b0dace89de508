/** Optional values, results that can fail, and broken connections. */
module Wrappers {
  datatype Option<+T> = None | Some(value: T)

  datatype Result<+T, +E> = Ok(value: T) | Err(error: E)

  /** What a database call does when the connection breaks: nothing, or everything but the reply. */
  datatype Fault = NoFault | LostBefore | LostAfter
}
