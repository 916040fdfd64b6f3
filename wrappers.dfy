/** Optional values, for the source's nil pointers and failable initializers. */
module Wrappers {

  datatype Option<T> = None | Some(value: T)

}
