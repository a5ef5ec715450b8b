/** The optional value returned by a dictionary lookup (`dict.get`). */
module Options {

  datatype Option<+T> = None | Some(value: T) {

    /** `d.get(key, default)`: the value if present, the default otherwise. */
    function GetOr(default: T): (r: T)
      ensures Some? ==> r == value
      ensures None? ==> r == default
    {
      match this
      case Some(v) => v
      case None => default
    }

    /** This lookup if it found a value, the other one otherwise. */
    function OrElse(other: Option<T>): (r: Option<T>)
      ensures Some? ==> r == this
      ensures None? ==> r == other
    {
      if Some? then this else other
    }
  }
}
