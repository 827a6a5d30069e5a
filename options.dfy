/** The conventional optional value, standing for JavaScript's `null` result. */
module Options {

  datatype Option<+T> = None | Some(value: T)
}
