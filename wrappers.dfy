/** The optional value used wherever the script either produces something or fails. */
module Wrappers {
  datatype Option<+T> = None | Some(value: T)
}
