/** The optional value used wherever a step may produce nothing. */
module Wrappers {
  datatype Option<+T> = None | Some(value: T)
}
