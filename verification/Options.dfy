/** The usual optional value, used wherever the program has a nil pointer or a missing key. */
module Options {
  datatype Option<+T> = None | Some(value: T)
}
