/** Option, for values that may be absent: a URI component that is not
    defined, or a request whose outcome is an error. */
module Wrappers {

  datatype Option<+T> = None | Some(value: T)

}
