/** Optional values, used where the source returns `None` or omits a dictionary
    key, and outcomes of steps that can raise. */
module Wrappers {

  datatype Option<+T> = None | Some(value: T)

  /** A step that either yields a value or raises with a message. */
  datatype Result<+T> = Success(value: T) | Failure(error: string)
}
