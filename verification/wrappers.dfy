/** A value that C# may leave null: a string, an array or an object reference. */
module Wrappers {

  datatype Option<+T> = None | Some(value: T)
}
