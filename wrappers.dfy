/** Optional values and fallible results, used wherever the source has
 *  `undefined`/`null` or throws. */
module Wrappers {
  datatype Option<T> = None | Some(value: T)
  {
    /** JavaScript `??`: the value when present, the default otherwise. */
    function GetOr(default: T): T {
      match this
      case Some(v) => v
      case None => default
    }
  }

  datatype Result<T> = Ok(value: T) | Err(error: string)
}
