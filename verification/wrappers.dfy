/** An optional value, used by the hit parsers. */
module Wrappers {

  datatype Option<+T> = None | Some(value: T)
}
