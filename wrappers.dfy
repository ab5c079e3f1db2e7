/** Kotlin's nullable values (`T?`) as an Option datatype. */
module Wrappers {

  datatype Option<+T> = None | Some(value: T) {

    /** Kotlin's `?:` operator: the value, or `default` when it is null. */
    function GetOr(default: T): T {
      match this
      case Some(v) => v
      case None => default
    }
  }
}
