/** Option and Result types used for the fallible operations of the model. */
module Wrappers {

  datatype Option<+T> = None | Some(value: T) {

    /** The wrapped value, or `default` when there is none. */
    function GetOr(default: T): (r: T)
      ensures Some? ==> r == value
      ensures None? ==> r == default
    {
      match this
      case Some(v) => v
      case None => default
    }
  }

  /** The `anyhow::Result` of the source, with the error reduced to a message. */
  datatype Result<+T> = Ok(value: T) | Err(error: string)
}
