/** Optional values, as Swift's `Optional` is used throughout the scheduler. */
module Wrappers {

  datatype Option<+T> = None | Some(value: T)
}
