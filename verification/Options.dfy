module Options {
  /** A value the program may leave undefined or null. */
  datatype Option<+T> = None | Some(value: T)

  /** A string that is there and not empty. */
  predicate Present(v: Option<string>) {
    v.Some? && v.value != ""
  }

  function OneOf<T>(v: Option<T>): seq<T> {
    if v.Some? then [v.value] else []
  }
}
