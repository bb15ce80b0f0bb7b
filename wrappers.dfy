/** The optional value used for outcomes of the remote store that may fail. */
module Wrappers {

  datatype Option<+T> = None | Some(value: T)
}
