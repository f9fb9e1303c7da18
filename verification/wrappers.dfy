/** The optional value used wherever the plugins test a Python value for truthiness. */
module Wrappers {

  datatype Option<+T> = None | Some(value: T)
}
