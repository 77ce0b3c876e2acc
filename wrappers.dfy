/** Optional values: `None` stands for JavaScript's `undefined` or for a failed decode. */
module Wrappers {
  datatype Option<+T> = None | Some(value: T)
}
