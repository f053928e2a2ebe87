/** Optional values and the outcome of a call into the storage API. */
module Wrappers {

  /** A JavaScript value that may be `undefined`/`null` (None) or present (Some). */
  datatype Option<+T> = None | Some(value: T) {

    /** The `??` operator: the value when present, else the default. */
    function GetOr(default: T): T {
      match this
      case Some(v) => v
      case None => default
    }
  }

  /** The settled promise of an API call: its resolved value, or the message of the thrown error. */
  datatype Result<+T> = Ok(value: T) | Err(message: string)
}
