/** Names shared by every component of the model. */
module Common {

  /** A nullable column or optional value. */
  datatype Option<+T> = None | Some(value: T)
}
