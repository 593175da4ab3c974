/** Optional values and outcomes that can fail. */
module Wrappers {
  datatype Option<+T> = None | Some(value: T)

  datatype Result<+T> = Err | Ok(value: T)
}
