/** The usual optional value, used for dictionary lookups and for parsing. */
module Options {
  datatype Option<T> = None | Some(value: T)
}
