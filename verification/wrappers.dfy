/** Optional values: the model's stand-in for the storefront's `null`,
    `undefined` and optional object fields. */
module Wrappers {

  datatype Option<+T> = None | Some(value: T)
}
