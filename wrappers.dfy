/** Optional values, used for JavaScript's `undefined`/`null` and for lookups that may miss. */
module Wrappers {
  datatype Option<+T> = None | Some(value: T)
}
