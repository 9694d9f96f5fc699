/** An optional value: a property the caller may omit (`undefined` in the app). */
module Optional {
  datatype Option<T> = None | Some(value: T)
}
