/** Optional values: an absent JavaScript field, a `findOne` that matched nothing, a failed validation. */
module Wrappers {

  datatype Option<+T> = None | Some(value: T)
}
