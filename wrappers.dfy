/** Optional values, for Python's `None` and for collaborators that may fail. */
module Wrappers {

  datatype Option<+T> = None | Some(value: T)
}
