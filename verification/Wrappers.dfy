/** The result types the other modules share. */
module Wrappers {
  datatype Option<+T> = None | Some(value: T) {
    function GetOr(otherwise: T): T {
      if Some? then value else otherwise
    }
  }

  datatype Result<+T, +E> = Ok(value: T) | Err(error: E)
}
