/** The optional value used for absent models and for calls that can raise. */
module Options {
  datatype Option<+T> = None | Some(value: T)
}
