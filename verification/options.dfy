/** A value that may be absent: a nil slot, a pop of an empty queue, a step that is not enabled. */
module Options {
  datatype Option<+T> = None | Some(value: T)
}
