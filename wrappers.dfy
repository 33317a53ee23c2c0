/** The optional result that replaces the nil sentinels of the source. */
module Wrappers {

  datatype Option<+T> = None | Some(value: T)
}
