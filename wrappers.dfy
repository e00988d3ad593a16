/** The optional value used throughout the model for JavaScript's `undefined`. */
module Wrappers {

  datatype Option<+T> = None | Some(value: T) {

    /**
     * The value, or a default when absent. `parseInt(x) || 0` is `GetOr(0)` on
     * `parseInt`'s result: there a present 0 is falsy too, and it agrees only
     * because the default is also 0.
     */
    function GetOr(default: T): T {
      match this
      case Some(v) => v
      case None => default
    }
  }
}
