/** Kotlin nullable values (`T?`) as an explicit option type. */
module Optional {
  datatype Option<+T> = None | Some(value: T)
}
