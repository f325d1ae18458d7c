/** An optional value: the model's stand-in for the components' `null` and
    optional (`?`) fields. */
module Options {

  datatype Option<+T> = None | Some(value: T)
}
