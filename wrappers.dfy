/** The absent-or-present value used for the component's nullable state (`error`, `diagnosis`). */
module Wrappers {
  datatype Option<+T> = None | Some(value: T)
}
