/** Optional values, standing for the source's std::optional and nullable pointers. */
module Wrappers {

  datatype Option<+T> = None | Some(value: T)
}
