/** Optional values and results, standing for the source's `null`/`undefined` and thrown errors. */
module Wrappers {

  /** `T | null` (or an absent property) in the source. */
  datatype Option<+T> = None | Some(value: T) {

    /** The `??` operator: the held value, or `default` when there is none. */
    function GetOr(default: T): T {
      match this
      case Some(v) => v
      case None => default
    }
  }

  /** A value, or the message an operation reports instead of it. */
  datatype Result<+T> = Ok(value: T) | Err(message: string)
}
