/** The optional value used where Go code returns a nil pointer or an `ok == false`. */
module Wrappers {

  datatype Option<+T> = None | Some(value: T)
}
