/** The two wrapper types shared by every model in this project. */
module Wrappers {

  /** A value that the source may leave undefined or null. */
  datatype Option<+T> = None | Some(value: T) {
    function GetOr(default: T): T {
      if Some? then value else default
    }
  }
}
