/** A value that may be missing: an unset field, a null pointer, an exception in place of a result. */
module Options {
  datatype Option<+T> = None | Some(value: T)
}
