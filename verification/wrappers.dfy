/** The optional value used wherever the Python code either produces a value or raises. */
module Wrappers {
  datatype Option<+T> = None | Some(value: T)
}
