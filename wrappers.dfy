/** Optional values and the error channel that stands for a raised exception. */
module Wrappers {

  datatype Option<+T> = None | Some(value: T) {
    function GetOr(default: T): T {
      match this
      case Some(v) => v
      case None => default
    }
  }

  /** A call either produces a value or raises; the raised exception is kept as the text `str(e)`. */
  datatype Result<+T> = Ok(value: T) | Err(msg: string)
}
