/** The optional value the model uses wherever the C# code holds a reference that may be null. */
module Wrappers {

  datatype Option<+T> = None | Some(value: T)
}
