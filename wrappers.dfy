/** Optional values: `None` stands where the source stores `null`. */
module Wrappers {
  datatype Option<+T> = None | Some(value: T)
}
