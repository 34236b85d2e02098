/** A value that may be missing: Go's nil pointers, zero times and absent map entries. */
module Options {
  datatype Option<+T> = None | Some(value: T)
}
