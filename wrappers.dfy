/** Python's `None`-or-value, as the model uses it for tile numbers and search results. */
module Wrappers {

  datatype Option<+T> = None | Some(value: T)
}
