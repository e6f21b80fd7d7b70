/** Optional values, used by the other modules for absent results and errors. */
module Wrappers {

  datatype Option<+T> = None | Some(value: T)
}
