/** Optional values: an absent key, an unreadable file, a value that names no enumerator. */
module Wrappers {

  datatype Option<+T> = None | Some(value: T)
}
