/** Optional values and results shared by every module. */
module Wrappers {
  datatype Option<+T> = None | Some(value: T)

  // A Python call either returns a value or raises.
  datatype Result<+T, +E> = Success(value: T) | Failure(error: E)

  // What befalls one call to a remote store: it works, it fails before it takes
  // effect, or it takes effect and only the reply is lost.
  datatype Fault = Fine | FailBefore | FailAfter
}
