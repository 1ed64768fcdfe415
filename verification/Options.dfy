/** The optional value shared by all models: Python's `None` or a value. */
module Options {
  datatype Option<+T> = None | Some(value: T)
}
