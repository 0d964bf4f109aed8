/** Optional values, for the fields a layer record or a form may leave out,
    and a result type for the one arithmetic failure of the comparison. */
module Wrappers {

  datatype Option<+T> = None | Some(value: T) {

    /** The value if present, otherwise `default`: a dictionary `get` with a fallback. */
    function GetOr(default: T): T {
      match this
      case Some(v) => v
      case None => default
    }
  }

  datatype Result<+R, +E> = Ok(value: R) | Err(error: E)
}
