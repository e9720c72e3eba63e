/** An optional value, standing for the nullable results of the browser APIs
    (`localStorage.getItem`, a ref that may be `null`). */
module Wrappers {

  datatype Option<+T> = None | Some(value: T)
}
