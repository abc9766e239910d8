/** An optional value, for lookups and fields that may be absent. */
module Options {
  datatype Option<+T> = None | Some(value: T)
}
