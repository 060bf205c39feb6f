/** A value that may be absent: PHP's `null` (or `false` where the source uses it as "nothing"). */
module Wrappers {
  datatype Option<+T> = None | Some(value: T)
}
