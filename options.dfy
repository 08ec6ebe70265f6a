/** An optional value, for C++ pointers that may be null. */
module Optional {
  datatype Option<T> = None | Some(value: T)
}
