/** The optional value used for the converter's nullable fields and lookups. */
module Wrappers {

  datatype Option<+T> = None | Some(value: T)

}
