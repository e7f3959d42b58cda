/** The optional value used wherever the source holds `T | null` or may lack a field. */
module Wrappers {
  datatype Option<+T> = None | Some(value: T)
}
