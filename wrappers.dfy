/** Optional values and success-or-failure results. `None` stands for JavaScript's
    `undefined`/`null`; a `Failure` stands for a thrown exception. */
module Wrappers {

  datatype Option<+T> = None | Some(value: T) {

    /** `this ?? default` */
    function GetOr(default: T): T {
      match this
      case Some(v) => v
      case None => default
    }
  }

  datatype Result<+T, +E> = Success(value: T) | Failure(error: E)
}
