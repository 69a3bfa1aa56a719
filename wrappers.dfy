/** The absent-or-present value used where the C# code returns a possibly-null reference. */
module Wrappers {
  datatype Option<+T> = None | Some(value: T)
}
