/** The optional value used where the script holds `null` or may leave a field absent. */
module Wrappers {

  datatype Option<+T> = None | Some(value: T)
}
