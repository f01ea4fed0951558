/** Optional values: a JavaScript `undefined`/`null` or a missing document. */
module Wrappers {

  datatype Option<+T> = None | Some(value: T) {

    /** The value, or `default` when there is none. */
    function GetOr(default: T): T {
      match this
      case Some(v) => v
      case None => default
    }
  }

  /** `upd` when it holds a value, otherwise `prior`: how one field of an update document lands. */
  function Overlay<T>(upd: Option<T>, prior: Option<T>): Option<T> {
    if upd.Some? then upd else prior
  }
}
