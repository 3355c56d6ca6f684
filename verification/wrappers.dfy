/** Optional values: TypeScript's `x?: T` properties and `T | null` props. */
module Wrappers {
  datatype Option<+T> = None | Some(value: T)
}
