/** The optional value used for the intake fields declared `Optional[str]`. */
module Wrappers {

  datatype Option<+T> = None | Some(value: T)
}
