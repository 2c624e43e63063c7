/** Optional values: the model of the Python `Optional[int]` fields of a step. */
module Wrappers {

  datatype Option<+T> = None | Some(value: T)
}
