/** Failure-carrying values used by the policy key codec. */
module Wrappers {

  /** A value that may be absent; `None` stands for Go's nil `Key`. */
  datatype Option<+T> = None | Some(value: T)

  /** A function result paired with Go's `error` return. */
  datatype Result<+T, +E> = Ok(value: T) | Err(error: E)
}
