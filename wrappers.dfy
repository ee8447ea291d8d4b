/** The optional value used where the program reads something that may be absent
    (a query parameter that is not there, a number that does not parse). */
module Wrappers {

  datatype Option<+T> = None | Some(value: T) {

    /** The value, or the default when there is none (JavaScript's `x || d` on a present, truthy x). */
    function GetOr(default: T): T {
      match this
      case Some(v) => v
      case None => default
    }
  }
}
