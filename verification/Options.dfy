module Options {
  /** A nullable column. */
  datatype Option<+T> = None | Some(value: T)
}
