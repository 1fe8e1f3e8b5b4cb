/** Optional values, used where the source's switch may find no case. */
module Wrappers {
  datatype Option<+T> = None | Some(value: T)
}
