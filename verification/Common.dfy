/** Vocabulary shared by every component of the model. */
module Common {

  datatype Option<+T> = None | Some(value: T)

  /** A UUID. Only equality matters. */
  type Id(==, !new)
}
