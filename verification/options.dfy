/** Fields a stored document may lack. */
module Options {

  /** A field that is either absent (read as `undefined` on the screen) or holds a value. */
  datatype Option<T> = None | Some(value: T)

  /** The screen's `field || fallback` for a field that may be absent: the field's value when it
      is present, the fallback otherwise. */
  function Or<T>(field: Option<T>, fallback: T): T {
    match field
    case Some(v) => v
    case None => fallback
  }
}
