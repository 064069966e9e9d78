/** Optional values: a database row that may be missing, a JavaScript value that may be
    `undefined`, a reply that may not have arrived. */
module Wrappers {

  datatype Option<+T> = None | Some(value: T) {

    /** The value, or `default` when there is none. */
    function GetOr(default: T): T {
      match this
      case Some(v) => v
      case None => default
    }
  }
}
