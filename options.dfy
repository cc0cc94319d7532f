/** The optional value used for lookups that can fail and for the
    success or failure of a call to an external service. */
module Options {

  datatype Option<+T> = None | Some(value: T)
}
