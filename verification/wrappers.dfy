/** The optional value that stands for a parse that may fail. */
module Wrappers {

  datatype Option<+T> = None | Some(value: T)
}
