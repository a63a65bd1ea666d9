/** Optional values, for the pose result that may carry no landmarks and
    for a queue read that may find nothing. */
module Wrappers {

  datatype Option<+T> = None | Some(value: T)
}
