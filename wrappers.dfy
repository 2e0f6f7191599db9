/** The Option datatype used wherever the script works with Python's None. */
module Wrappers {

  datatype Option<+T> = None | Some(value: T)
}
