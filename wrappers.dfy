/** The optional value used for a missing table selection and for an unreadable amount field. */
module Wrappers {
  datatype Option<+T> = None | Some(value: T)
}
