/** An optional value, for lookups and decodes that can come up empty. */
module Maybe {
  datatype Option<T> = None | Some(value: T)
}
