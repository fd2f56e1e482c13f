/** The optional value used wherever the source has a nil pointer or a zero value that means "absent". */
module Options {

  datatype Option<+T> = None | Some(value: T)
}
