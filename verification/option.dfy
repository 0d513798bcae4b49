/** An optional value: the model's stand-in for the program's `null` results
    and for input that did not parse as a number. */
module Optional {

  datatype Option<+T> = None | Some(value: T)
}
