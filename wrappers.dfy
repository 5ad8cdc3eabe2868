/** Optional values and results, standing for JavaScript's `null`/`undefined` and for thrown errors. */
module Wrappers {

  /** `None` stands for `null` or `undefined`. */
  datatype Option<+T> = None | Some(value: T) {
    function GetOr(default: T): T {
      match this
      case Some(v) => v
      case None => default
    }
  }

  /** `Err` stands for a rejected promise or a thrown error. */
  datatype Result<+R, +E> = Ok(value: R) | Err(error: E)
}
