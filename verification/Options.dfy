// The usual Option datatype.
module Options {
  datatype Option<+T> = None | Some(value: T)
}
