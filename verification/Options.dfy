/** A value that may be missing: a Redis key, an SQL row, an absent field. */
module Options {
  datatype Option<+T> = None | Some(value: T)
}
