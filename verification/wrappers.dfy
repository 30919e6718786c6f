/** The optional value used for the window title, the open session's title and its start time. */
module Wrappers {
  datatype Option<+T> = None | Some(value: T)
}
