/** A value that may be absent, as a nil pointer or an `ok` result is in the source. */
module Options {
  datatype Option<+T> = None | Some(value: T)
}
