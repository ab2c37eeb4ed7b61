/** Optional values and results shared by the relay and the chat component. */
module Options {

  /** A value that may be missing (an omitted JSON field, a remote call that threw). */
  datatype Option<T> = None | Some(value: T) {
    function GetOr(default: T): T {
      match this
      case Some(v) => v
      case None => default
    }
  }

  /** A value, or the message of the error raised instead of it. */
  datatype Result<T> = Ok(value: T) | Err(error: string)
}
