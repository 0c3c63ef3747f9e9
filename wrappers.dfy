/** The optional value used wherever the planner stores `null` or finds nothing. */
module Wrappers {

  datatype Option<+T> = None | Some(value: T)
}
