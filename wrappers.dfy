/** The Option datatype used for values that JavaScript leaves `undefined`
    and for lookups that can fail. */
module Wrappers {

  datatype Option<+T> = None | Some(value: T)
}
