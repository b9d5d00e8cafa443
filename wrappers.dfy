/** The Option datatype used for partial results (a parse that can fail). */
module Wrappers {

  datatype Option<+T> = None | Some(value: T)
}
