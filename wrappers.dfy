/** The absent-or-present result that the Swift code expresses with optionals. */
module Wrappers {
  datatype Option<+T> = None | Some(value: T)
}
