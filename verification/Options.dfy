/** A pointer that may be NULL, as a value. */
module Options {
  datatype Option<+T> = None | Some(value: T)
}
