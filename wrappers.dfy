/** Option, used for decoders that may reject their input and for Go values that may be nil. */
module Wrappers {

  datatype Option<+T> = None | Some(value: T)
}
