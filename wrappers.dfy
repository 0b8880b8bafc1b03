/** Optional values: `None` stands for the cases where the Go code yields no
    usable number (a NaN percentage, a division by zero), or the supplied
    draws running out before enough indices are chosen. */
module Wrappers {
  datatype Option<+T> = None | Some(value: T)
}
