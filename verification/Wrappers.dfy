/** Optional values, which several components share. */
module Wrappers {

  datatype Option<+T> = None | Some(value: T)

}
