/** Optional values, for the places where the app falls back to a default or reports that nothing was found. */
module Wrappers {
  datatype Option<T> = None | Some(value: T)
}
