/** A value or none, for every module that looks something up. */
module Options {
  datatype Option<+T> = None | Some(value: T)
}
