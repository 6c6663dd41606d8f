/** Python's `None`-or-value, as an algebraic datatype. */
module Wrappers {

  datatype Option<+T> = None | Some(value: T)
}
