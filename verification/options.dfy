/** An optional value: a JavaScript field or argument that may be `undefined`. */
module Options {

  datatype Option<+T> = None | Some(value: T) {

    /** The value when present, else `default`, as a destructuring default gives for an undefined field. */
    function GetOr(default: T): (r: T)
      ensures Some? ==> r == value
      ensures None? ==> r == default
    {
      match this
      case Some(v) => v
      case None => default
    }
  }
}
