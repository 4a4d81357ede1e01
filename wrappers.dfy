/** Optional values: `None` stands for JavaScript's `undefined` result or a thrown TypeError. */
module Wrappers {

  datatype Option<+T> = None | Some(value: T)
}
