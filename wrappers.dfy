/** The optional-value type used for JavaScript's `undefined`/`null` and for `NaN`. */
module Wrappers {

  datatype Option<+T> = None | Some(value: T) {

    /** The wrapped value, or `default` when there is none (JavaScript's `x ?? default`). */
    function GetOr(default: T): T {
      match this
      case Some(v) => v
      case None => default
    }

    /** This value when there is one, `other` otherwise. */
    function Or(other: Option<T>): Option<T> {
      if this.Some? then this else other
    }
  }
}
