/** The usual optional value, standing for the nullable columns of the database. */
module Options {
  datatype Option<+T> = None | Some(value: T)
}
