/** Option stands for a value the source may leave as Python's None:
    a nullable store column, an unparseable number, a formula that is not found. */
module Wrappers {

  datatype Option<+T> = None | Some(value: T) {

    /** The present value, or `default` when there is none. */
    function GetOr(default: T): T {
      match this
      case Some(v) => v
      case None => default
    }
  }
}
