/** Optional values: a missing counter-offer, or console text that did not parse. */
module Wrappers {
  datatype Option<+T> = None | Some(value: T)
}
