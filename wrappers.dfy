/** Optional values, the model's stand-in for Go's nil pointers and for
    "ok" results of map lookups and decoders. */
module Wrappers {
  datatype Option<+T> = None | Some(value: T)
}
