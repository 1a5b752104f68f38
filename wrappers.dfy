/** The optional-value wrapper used for every attribute of a trace. */
module Wrappers {
  datatype Option<+T> = None | Some(value: T)
}
