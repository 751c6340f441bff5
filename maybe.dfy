/** An optional value: JavaScript's `null`/`undefined` on the one side, a present value on the other. */
module Maybe {
  datatype Option<+T> = None | Some(value: T)
}
