/** Option and Result, the failure-carrying values the rest of the model returns. */
module Wrappers {

  datatype Option<+T> = None | Some(value: T) {
    function GetOr(default: T): T {
      match this
      case Some(v) => v
      case None => default
    }
  }

  /** `Ok` is a `{ success: true, ... }` reply, `Err` an error reply. */
  datatype Result<+R, +E> = Ok(value: R) | Err(error: E)
}
