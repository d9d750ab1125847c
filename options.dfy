/** A value that may be missing: `null` in the front end's own terms. */
module Options {

  datatype Option<+T> = None | Some(value: T)
}
