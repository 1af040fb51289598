/** Optional values: paper.project before a project is loaded, a recorded press before any drag. */
module Wrappers {
  datatype Option<T> = None | Some(value: T)
}
