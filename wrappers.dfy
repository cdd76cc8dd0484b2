/** The optional value used where the trainer keeps `None` for "not yet known". */
module Wrappers {

  datatype Option<+T> = None | Some(value: T)
}
