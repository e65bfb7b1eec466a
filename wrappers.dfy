/** The optional value used for the outcomes of the foreign planners and for
    out-parameters that a failing call leaves untouched. */
module Wrappers {
  datatype Option<+T> = None | Some(value: T)
}
