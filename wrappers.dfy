/** Option and Result values used by the whole model in place of Python's
    None, missing keys and raised exceptions. */
module Wrappers {

  datatype Option<+T> = None | Some(value: T) {
    function GetOr(default: T): T {
      match this
      case Some(v) => v
      case None => default
    }
  }

  /** `Err` carries the text that `str(e)` of the raised exception would give. */
  datatype Result<+T> = Ok(value: T) | Err(error: string)
}
