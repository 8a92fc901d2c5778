/** The optional value used wherever the application reads something that may be absent
    (a missing query parameter, a missing storage key, a search that finds nothing). */
module Wrappers {
  datatype Option<+T> = None | Some(value: T)
}
