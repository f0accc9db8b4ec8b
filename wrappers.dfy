/** Optional values: TypeScript's optional properties, `null` and `undefined`. */
module Wrappers {

  /** `None` stands for a missing (undefined or null) value. */
  datatype Option<+T> = None | Some(value: T) {

    /** The wrapped value, or `default` when there is none. */
    function GetOr(default: T): T {
      match this
      case Some(v) => v
      case None => default
    }
  }
}
