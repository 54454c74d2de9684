/** Optional values: a query parameter, header or payload field that may be absent. */
module Wrappers {

  datatype Option<+T> = None | Some(value: T)
}
