/** Optional values: the game's "head not found" is `None`. */
module Wrappers {

  datatype Option<+T> = None | Some(value: T)
}
