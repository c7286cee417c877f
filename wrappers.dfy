/** Optional values: a JavaScript field that is `undefined` until first assigned. */
module Wrappers {
  datatype Option<+T> = None | Some(value: T)
}
