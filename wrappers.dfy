/** Optional values: the model's stand-in for Python's None and for a
    computation that raised and was caught. */
module Wrappers {

  datatype Option<+T> = None | Some(value: T)
}
