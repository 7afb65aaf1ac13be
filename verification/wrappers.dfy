/** Optional values, standing in for TypeScript's optional (`field?`) properties
    and for readings that may fail. */
module Wrappers {

  datatype Option<+T> = None | Some(value: T)
}
