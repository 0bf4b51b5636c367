/** The option type shared by all modules: a null pointer or a value. */
module Options {
  datatype Option<+T> = None | Some(value: T)
}
