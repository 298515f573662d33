/** Option and Result types shared by the contract model. */
module Wrappers {

  /** A value that may be absent, as returned by a storage `may_load`. */
  datatype Option<+T> = None | Some(value: T) {

    /** The wrapped value, or `default` when there is none. */
    function GetOr(default: T): T {
      match this
      case Some(v) => v
      case None => default
    }
  }

  /** The outcome of a contract call: a value, or the error that aborted the call. */
  datatype Result<+T, +E> = Ok(value: T) | Err(error: E)
}
