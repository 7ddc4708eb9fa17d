/** Optional values: an absent token, an absent server message, an article not found. */
module Wrappers {
  datatype Option<+T> = None | Some(value: T)
}
