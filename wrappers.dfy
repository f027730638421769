/** Optional values: the model's counterpart of a TypeScript `T | null` return. */
module Wrappers {

  datatype Option<+T> = None | Some(value: T)

}
