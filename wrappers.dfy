/** The nullable results of the PHP code (`?Courier`, an unset property) as an explicit option. */
module Wrappers {
  datatype Option<+T> = None | Some(value: T)
}
