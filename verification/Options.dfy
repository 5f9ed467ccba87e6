/** The one optional type shared by every module: a nullable column, a missing row. */
module Options {
  datatype Option<+T> = None | Some(value: T)
}
