/** Small notions shared by the models. */
module Base {
  datatype Option<+T> = None | Some(value: T)
}
