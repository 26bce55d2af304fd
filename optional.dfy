/** A possibly absent value: the model's stand-in for a nullable pointer. */
module Optional {

  datatype Option<+T> = None | Some(value: T)
}
