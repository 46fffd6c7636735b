/** The C# `null` of a reference value, made explicit. */
module Wrappers {

  datatype Option<+T> = None | Some(value: T)
}
