/** The absent-or-present value used across the models. */
module Options {
  datatype Option<+T> = None | Some(value: T)
}
