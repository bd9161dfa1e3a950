/** The optional value used for JavaScript's `null` (and `undefined`) throughout the model. */
module Options {

  datatype Option<+T> = None | Some(value: T)
}
