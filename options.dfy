/** The conventional optional value, standing for a variable that may hold Python's `None`. */
module Options {

  datatype Option<+T> = None | Some(value: T)
}
