/** The optional value used wherever a Python lookup or parse can fail. */
module Wrappers {

  datatype Option<+T> = None | Some(value: T)

}
