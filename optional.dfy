/** Python's `None`-or-value, used for every optional argument and lookup. */
module Optional {
  datatype Option<+T> = None | Some(value: T)
}
