/** A value that may be absent: a nil pointer, a missing map entry, an error. */
module Options {
  datatype Option<+T> = None | Some(value: T)
}
