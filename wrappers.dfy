/** Python's `None`-or-value results, as the model uses them. */
module Wrappers {

  datatype Option<+T> = None | Some(value: T)
}
