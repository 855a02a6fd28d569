/** A possibly absent value: a missing bound, a missing customer id, a missing table. */
module Optional {
  datatype Option<+T> = None | Some(value: T)
}
