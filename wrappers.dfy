/** The optional value used wherever the source has a sentinel or a failed lookup. */
module Wrappers {
  datatype Option<T> = None | Some(value: T)
}
