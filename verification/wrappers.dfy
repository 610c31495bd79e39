/** Optional values: a document field or a document that may be absent. */
module Wrappers {

  datatype Option<+T> = None | Some(value: T)
}
