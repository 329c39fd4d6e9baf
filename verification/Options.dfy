/** A value that may be absent: the null pointers, empty functors and failed matches of the library. */
module Options {
  datatype Option<+T> = None | Some(value: T)
}
