/// The optional value used wherever a JavaScript value may be `null`/`undefined`
/// or an operation may fail.
module Wrappers {

  datatype Option<+T> = None | Some(value: T)
}
