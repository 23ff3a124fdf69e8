/** The one optional value used where the service has a nullable column or a missing key. */
module Options {
  datatype Option<+T> = None | Some(value: T)
}
