/** A value that may be absent: stands for JavaScript's `null` and for a
    request whose `catch` branch ran instead of its success path. */
module Wrappers {

  datatype Option<+T> = None | Some(value: T)
}
