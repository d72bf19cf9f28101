/** The optional value used wherever the source returns `None` for "absent". */
module Wrappers {

  datatype Option<T> = None | Some(value: T) {
    function GetOr(default: T): (v: T)
    {
      match this
      case Some(v) => v
      case None => default
    }
  }
}
