/** A value that may be absent: `undefined`, `null` or no result in the source. */
module Options {
  datatype Option<+T> = None | Some(value: T)
}
