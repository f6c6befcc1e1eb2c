/** The value that may be absent, in place of the program's None. */
module Wrappers {
  datatype Option<+T> = None | Some(value: T)
}
