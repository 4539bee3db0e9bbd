/** The optional value used wherever the page may have nothing to offer:
    an absent storage slot, a suite name without a description, a view
    that cannot be built. */
module Wrappers {

  datatype Option<+T> = None | Some(value: T) {

    /** The wrapped value, or `default` when there is none. */
    function GetOr(default: T): T {
      match this
      case Some(v) => v
      case None => default
    }
  }
}
