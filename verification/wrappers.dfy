/** Optional values and settled promises, shared by the whole model.
    - Option<T> stands for a JavaScript value that may be null or undefined.
    - Result<T> stands for a settled promise: fulfilled with a value, or
      rejected with an Error whose `message` is kept.
 */
module Wrappers {

  datatype Option<+T> = None | Some(value: T) {

    /** Returns the value held by Some, or the default for None. */
    function GetOr(default: T): T
    {
      match this
      case Some(v) => v
      case None => default
    }
  }

  datatype Result<+T> = Ok(value: T) | Err(message: string)
}
