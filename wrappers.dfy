/** Optional values and success/failure results, used for the handlers' error responses. */
module Wrappers {

  datatype Option<+T> = None | Some(value: T)

  /** A handler's outcome: the success payload or the error it responds with. */
  datatype Result<+T, +E> = Ok(value: T) | Err(error: E)

  /** A truthy optional string: present and not empty. */
  predicate Present(v: Option<string>) {
    v.Some? && v.value != ""
  }
}
