/** Optional values, for lookups and operations that may raise in the bot. */
module Wrappers {

  datatype Option<+T> = None | Some(value: T)
}
