/** The nullable-reference idiom of the modelled Java and Kotlin code. */
module Wrappers {

  /** A value that may be absent, standing for a Java or Kotlin `null`. */
  datatype Option<+T> = None | Some(value: T) {

    /** The value, or `default` when absent (Kotlin's `?:`). */
    function GetOr(default: T): T {
      match this
      case Some(v) => v
      case None => default
    }
  }
}
