/** Optional values: an attribute read from a page element is either a
    string or absent (Python's `None`). */
module Wrappers {

  datatype Option<+T> = None | Some(value: T)
}
