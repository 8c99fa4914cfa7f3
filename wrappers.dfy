/** The optional value used for JavaScript's `undefined`/`null` fields. */
module Wrappers {

  datatype Option<T> = None | Some(value: T) {

    /** The value carried by `Some`, or `default` for `None`. */
    function GetOr(default: T): T {
      match this
      case Some(v) => v
      case None => default
    }
  }
}
