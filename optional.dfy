/** The optional value used wherever the program may produce nothing. */
module Optional {
  datatype Option<+T> = None | Some(value: T)
}
