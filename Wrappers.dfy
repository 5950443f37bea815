/** The Some/None wrapper used wherever the source returns `None` or a decoder call may fail. */
module Wrappers {

  datatype Option<+T> = None | Some(value: T)
}
