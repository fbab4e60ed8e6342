/** Optional values. `None` stands for a pandas NaN: a row where a column has no value. */
module Wrappers {

  datatype Option<+T> = None | Some(value: T)
}
