/** A value that may be absent: a null pointer, an opcode that decodes to nothing. */
module Optional {
  datatype Option<+T> = None | Some(value: T)
}
