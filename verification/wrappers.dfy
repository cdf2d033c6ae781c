/** The optional value used for the source's `Optional[...]` fields and `dict.get` lookups. */
module Wrappers {

  datatype Option<+T> = None | Some(value: T)
}
