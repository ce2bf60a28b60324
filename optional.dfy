/** A value that may be absent: a key missing from a JSON object. */
module Optional {

  datatype Option<+T> = None | Some(value: T) {

    /** The value when present, otherwise the fallback (Python's `dict.get(key, default)`). */
    function GetOr(default: T): (r: T)
      ensures Some? ==> r == value
      ensures None? ==> r == default
    {
      match this
      case Some(v) => v
      case None => default
    }
  }
}
