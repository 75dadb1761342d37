/** The optional value used wherever the storefront code works with `null`
    or with the `undefined` that `Array.prototype.find` returns on a miss. */
module Options {
  datatype Option<+T> = None | Some(value: T)
}
