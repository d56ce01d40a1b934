// A value that may be missing: None in the source.
module Options {

  datatype Option<+T> = None | Some(value: T)
}
