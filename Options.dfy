/** Kotlin's nullable types (`T?`) and the elvis operator `?:`. */
module Options {

  datatype Option<+T> = None | Some(value: T)

  /** `o ?: default`: the value when present, the fallback when null. */
  function OrElse<T>(o: Option<T>, default: T): (r: T)
    ensures o.Some? ==> r == o.value
    ensures o.None? ==> r == default
  {
    match o
    case Some(v) => v
    case None => default
  }
}
