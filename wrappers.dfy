/** Option, the stock Some/None datatype used for absent values throughout the model. */
module Wrappers {

  datatype Option<+T> = None | Some(value: T) {

    /** The value, or `default` if there is none (Python's `dict.get(key, default)`). */
    function GetOr(default: T): T {
      match this
      case Some(v) => v
      case None => default
    }
  }
}
