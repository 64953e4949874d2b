/** Optional values: a Python `None` or a shape that TensorFlow cannot infer. */
module Wrappers {
  datatype Option<+T> = None | Some(value: T)
}
