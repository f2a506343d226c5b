/** Optional values, used for absent ledger keys and for refused writes. */
module Wrappers {

  datatype Option<+T> = None | Some(value: T)
}
