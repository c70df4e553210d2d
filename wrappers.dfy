/** The optional value used wherever the source returns `null`, `None` or an absent setter. */
module Wrappers {

  datatype Option<+T> = None | Some(value: T)
}
