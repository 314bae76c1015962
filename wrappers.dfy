/** The optional value used wherever the plugin returns Python's `None` or a value. */
module Wrappers {
  datatype Option<+T> = None | Some(value: T)
}
