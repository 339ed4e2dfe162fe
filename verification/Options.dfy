/** An optional value, for the source's `std::optional` and nullable pointers. */
module Options {
  datatype Option<+T> = None | Some(value: T)
}
