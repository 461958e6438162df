/** Python's `None`-or-value results, as the rules return them. */
module Optional {

  datatype Option<+T> = None | Some(value: T)
}
