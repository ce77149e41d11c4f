/** The optional value returned by every getter whose C++ original reports
    success through a `bool` and the value through an out-parameter. */
module Wrappers {

  datatype Option<+T> = None | Some(value: T)
}
