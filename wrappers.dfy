/** The optional value the planner uses for "not found" and "nothing selected". */
module Wrappers {

  datatype Option<+T> = None | Some(value: T)
}
