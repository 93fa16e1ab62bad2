/** Optional values, for the inputs and decodings that may be absent. */
module Wrappers {

  datatype Option<+T> = None | Some(value: T)
}
