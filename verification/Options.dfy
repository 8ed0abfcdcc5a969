/** The optional value used wherever the C++ code has a nullable pointer or a "not yet" result. */
module Options {
  datatype Option<+T> = None | Some(value: T)
}
