/** Optional values: the model's stand-in for the nullable references of the client. */
module Wrappers {

  datatype Option<+T> = None | Some(value: T)
}
