/** Optional values: an attribute that may never have been assigned, a
    bus property that still holds its initial `None`. */
module Wrappers {

  datatype Option<+T> = None | Some(value: T)
}
