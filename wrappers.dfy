/** Optional values: the nullable columns and storage keys of the wallet. */
module Wrappers {
  datatype Option<+T> = None | Some(value: T)
}
