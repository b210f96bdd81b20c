/** An optional value: a configuration key that may be absent, or a request
    field that is sent only when configured non-empty. */
module Options {

  datatype Option<+T> = None | Some(value: T) {

    /** The value when present, otherwise the default (Python's `dict.get(key, default)`). */
    function GetOr(default: T): T
    {
      match this
      case Some(v) => v
      case None => default
    }
  }
}
