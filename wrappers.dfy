/** The optional value used wherever the source holds `T | null` or `T | undefined`. */
module Wrappers {
  datatype Option<+T> = None | Some(value: T)
}
