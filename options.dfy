/** Python's `dict.get(key, default)` on optional record fields. */
module Options {

  datatype Option<T> = None | Some(value: T) {

    /** The value when present, otherwise `default`. */
    function GetOr(default: T): T {
      match this
      case Some(v) => v
      case None => default
    }
  }
}
