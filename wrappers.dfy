/** Null-able references of the C# source become `Option` values. */
module Wrappers {
  datatype Option<+T> = None | Some(value: T)
}
