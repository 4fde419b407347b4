/** A .NET reference that may be null is modelled as an Option. */
module Wrappers {

  datatype Option<+T> = None | Some(value: T)
}
