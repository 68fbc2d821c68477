/** Small value wrappers shared by the story models and the page handlers. */
module Wrappers {

  /** A value that may be absent (an `undefined` or `null` in the client). */
  datatype Option<+T> = None | Some(value: T)

  /** What the remote service answered to one request: the payload on success,
      or the HTTP status of the failure (None when no response arrived at all,
      so that `err.response.status` cannot be read). */
  datatype Reply<+T> = Success(value: T) | Failure(status: Option<int>)
}
