/** Optional values, standing for the source's `undefined` / optional fields. */
module Wrappers {
  datatype Option<+T> = None | Some(value: T)
}
