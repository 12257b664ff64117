/** The optional value used wherever the system answers "a record, or none". */
module Wrappers {

  datatype Option<+T> = None | Some(value: T)
}
