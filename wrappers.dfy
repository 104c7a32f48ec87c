/** Optional values, used where the source has a null pointer or an absent map entry. */
module Wrappers {
  datatype Option<+T> = None | Some(value: T)
}
