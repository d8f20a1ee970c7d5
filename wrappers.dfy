/** Optional values, standing for JavaScript's `null`/`undefined` results. */
module Wrappers {
  datatype Option<T> = None | Some(value: T)
}
