/** The Some/None wrapper used for files that may be absent. */
module Optional {
  datatype Option<+T> = None | Some(value: T)
}
