/** Optional values: the model's counterpart of a TypeScript optional field
    (`field?: T`) or a nullable reference (`T | null`). */
module Wrappers {

  datatype Option<+T> = None | Some(value: T) {

    /** Returns the value held in Some, or `default` when None */
    function GetOr(default: T): T {
      match this
      case Some(v) => v
      case None => default
    }
  }
}
