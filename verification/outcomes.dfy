/** Optional values and the outcome of a remote call. */
module Outcomes {

  /** A value that may be absent (`null` / `undefined` on the wire). */
  datatype Option<+T> = None | Some(value: T)

  /** The outcome of a call into the remote store: its result, or the error message it failed with. */
  datatype Result<+T> = Success(value: T) | Failure(message: string)
}
