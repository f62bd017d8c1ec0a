/** The optional value used wherever JavaScript may hold `undefined`. */
module Wrappers {

  datatype Option<+T> = None | Some(value: T)
}
