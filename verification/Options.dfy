/** The optional value that a missing key, annotation or reply becomes. */
module Options {
  datatype Option<+T> = None | Some(value: T)
}
