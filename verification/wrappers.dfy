/** Optional values: an attribute of a stored item or a key of an inbound
    event that may be absent. */
module Wrappers {

  /** `None` is an absent attribute or key; `Some(v)` a present one. */
  datatype Option<+T> = None | Some(value: T)
}
