/** The optional value used by the readers and the route lookup. */
module Wrappers {
  datatype Option<+T> = None | Some(value: T)
}
