/** The optional value that the script expresses with Python's None. */
module Wrappers {
  datatype Option<+T> = None | Some(value: T)
}
