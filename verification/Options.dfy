/** The value-or-nothing type shared by the models below. */
module Options {
  datatype Option<+T> = None | Some(value: T)
}
