/** An optional value: the model's stand-in for a JavaScript `null` reference
    and for a parse or conversion that can fail. */
module Optional {

  datatype Option<+T> = None | Some(value: T)
}
