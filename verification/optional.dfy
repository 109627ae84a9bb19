/** The absent-or-present value used for the screen's optional data and for parsers. */
module Optional {

  datatype Option<+T> = None | Some(value: T)
}
