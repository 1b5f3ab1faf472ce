/** A value that may be missing (`null`/`undefined` in the source). */
module Options {
  datatype Option<T> = None | Some(value: T)
}
