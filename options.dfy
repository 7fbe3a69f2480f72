/** The optional value the source writes as `T | null` or as an absent field. */
module Options {

  datatype Option<+T> = None | Some(value: T)
}
