/** Optional values: Swift's `T?` (an optional frame, an optional map file). */
module Wrappers {
  datatype Option<+T> = None | Some(value: T)
}
