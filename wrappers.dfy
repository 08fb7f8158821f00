/** The optional value used where PHP returns null or a lookup can miss. */
module Wrappers {

  datatype Option<+T> = None | Some(value: T)
}
