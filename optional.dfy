/** The absent-or-present value used for JavaScript's `null` and for partial parsers. */
module Optional {

  datatype Option<+T> = None | Some(value: T)

}
