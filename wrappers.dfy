/** Optional values: JavaScript's `null` (or an absent element) is `None`. */
module Wrappers {

  datatype Option<+T> = None | Some(value: T)
}
