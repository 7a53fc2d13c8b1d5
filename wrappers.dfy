/** Optional values: `undefined` in the dashboard's TypeScript becomes `None`. */
module Wrappers {

  datatype Option<+T> = None | Some(value: T)
}
