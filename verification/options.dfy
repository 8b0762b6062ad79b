/** The optional value used where the services store `null` or leave a field out. */
module Options {
  datatype Option<+T> = None | Some(value: T)
}
