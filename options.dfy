/** The optional value used wherever the program may hold `null` or `undefined`. */
module Options {

  datatype Option<+T> = None | Some(value: T)
}
