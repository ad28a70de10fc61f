/** An optional value: Kotlin's nullable types and results that may be absent. */
module Options {

  datatype Option<+T> = None | Some(value: T)

}
