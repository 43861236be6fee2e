/** A pointer that may be null: an empty std::function, an empty shared_ptr. */
module Options {
  datatype Option<+T> = None | Some(value: T)
}
