/** Optional values, used wherever the source has a missing key, a missing
    extremum or a step that raised. */
module Wrappers {
  datatype Option<+T> = None | Some(value: T)
}
