/** Optional values, standing in for the nullable references of the launcher. */
module Wrappers {

  datatype Option<T> = None | Some(value: T)
}
