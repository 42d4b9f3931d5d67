/** Optional values, used for results that may be absent (a failed listing,
    an instance without an applicable check, a tag without a separator). */
module Wrappers {

  datatype Option<+T> = None | Some(value: T)
}
