/** Optional values: JavaScript's `undefined`/`null` where the source treats a value as possibly absent. */
module Wrappers {
  datatype Option<+T> = None | Some(value: T)
}
