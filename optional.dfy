/** An optional value, for C pointers that may be NULL. */
module Optional {
  datatype Option<T> = None | Some(value: T)
}
