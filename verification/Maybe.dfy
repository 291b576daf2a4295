/** Nil-able values: a Go pointer, map or slice that may be nil but whose identity does not matter. */
module Maybe {
  datatype Option<+T> = None | Some(value: T) {
    function GetOr(default: T): T {
      match this
      case None => default
      case Some(v) => v
    }
  }
}
