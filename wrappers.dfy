/** The optional value used for the single tone slot and for table lookups that can miss. */
module Wrappers {
  datatype Option<+T> = None | Some(value: T)
}
