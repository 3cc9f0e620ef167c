/** A value, or none: the source's missing map entries, empty answers and nil pointers. */
module Options {

  datatype Option<+T> = None | Some(value: T)
}
