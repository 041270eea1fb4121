/** Optional values, standing for the NULL-or-pointer results of the C sources. */
module Wrappers {
  datatype Option<T> = None | Some(value: T)
}
