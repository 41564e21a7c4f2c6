/** A value that may be missing: the null pointer or the search without result of the driver. */
module Options {
  datatype Option<T> = None | Some(value: T)
}
