/** An optional value, for what the source calls `None`. */
module Options {
  datatype Option<+T> = None | Some(value: T)
}
