/** An optional value, used for the optional label of the parallel_reduce
    overloads and for the outcome of overload resolution. */
module Wrappers {

  datatype Option<+T> = None | Some(value: T) {

    /** The held value, or `default` when there is none. */
    function GetOr(default: T): T {
      match this
      case Some(v) => v
      case None => default
    }
  }
}
