/** The usual optional value, used for lookups that may miss. */
module Options {
  datatype Option<T> = None | Some(value: T)
}
