/** Optional values: JavaScript's `undefined` versus a present value. */
module Wrappers {

  datatype Option<+T> = None | Some(value: T)
}
