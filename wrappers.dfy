/** The optional value used for result ids and for searches that may fail. */
module Wrappers {

  datatype Option<+T> = None | Some(value: T)
}
