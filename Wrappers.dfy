/** An optional value: a field the source may leave undefined, or a search that may find nothing. */
module Wrappers {

  datatype Option<+T> = None | Some(value: T)

}
