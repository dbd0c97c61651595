/** The usual Some/None wrapper, used for Python attributes and fields that may be None. */
module Optional {

  datatype Option<+T> = None | Some(value: T)
}
