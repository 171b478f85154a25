/** Optional values and the success/failure outcome of a store request. */
module Wrappers {

  /** A value that may be absent (`undefined`/`null` in the app). */
  datatype Option<+T> = None | Some(value: T)

  /** The result of one request to the remote store: its data, or an error. */
  datatype Outcome<+T> = Ok(value: T) | Err
}
