/** Optional values: JavaScript's `undefined` (or `null`) next to a present value. */
module Wrappers {

  datatype Option<+T> = None | Some(value: T)
}
