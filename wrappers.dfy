/** The optional value used for Redis replies, control commands and search results. */
module Wrappers {
  datatype Option<+T> = None | Some(value: T)
}
