/** The optional value used where the server keeps "nothing found yet" (a null reference). */
module Options {
  datatype Option<+T> = None | Some(value: T)
}
