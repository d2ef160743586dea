/** A value that may be absent: a JSON field that is missing, or a text that does not parse. */
module Options {
  datatype Option<T> = None | Some(value: T)
}
