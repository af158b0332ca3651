/** An optional value, for lookups and parses that may find nothing and for handler slots
    that may be empty. */
module Options {
  datatype Option<T> = None | Some(value: T)
}
