/** Optional values and single-shot replies shared by the other modules. */
module Wrappers {

  /** Swift's `Optional`: `None` is `nil`. */
  datatype Option<+T> = None | Some(value: T) {

    /** Swift's `??` operator. */
    function GetOr(default: T): T
    {
      match this
      case Some(v) => v
      case None => default
    }
  }

  /** The one value or the one failure that an asynchronous network call delivers.
      The error's payload is only logged by the application, so it is not kept. */
  datatype Result<+T> = Success(value: T) | Failure
}
