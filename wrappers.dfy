/** The optional value used wherever the controller's code produces `None` or a missing selection. */
module Wrappers {

  datatype Option<+T> = None | Some(value: T)
}
