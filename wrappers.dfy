/** Option and Result, used for the outcomes the model receives from collaborators it cannot see
    (a parse that failed, a search that raised, a clock that has no further reading). */
module Wrappers {

  datatype Option<+T> = None | Some(value: T) {
    function GetOr(default: T): T {
      match this
      case Some(v) => v
      case None => default
    }
  }

  datatype Result<+R, +E> = Ok(value: R) | Err(error: E)
}
