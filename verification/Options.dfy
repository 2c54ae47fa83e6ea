/** The optional value used wherever the program distinguishes "no such file or record". */
module Options {
  datatype Option<+T> = None | Some(value: T)
}
