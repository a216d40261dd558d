/** Optional values: a missing JSON field or an absent storage key. */
module Wrappers {

  datatype Option<+T> = None | Some(value: T)

}
