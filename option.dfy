/** An optional value: a Java reference that may be null, or a lookup that may find nothing. */
module Options {
  datatype Option<T> = None | Some(value: T)
}
