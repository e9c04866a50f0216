/** Optional values and the truthiness of a possibly-undefined number. */
module Options {

  /** A value that may be absent (`undefined` in the page code). */
  datatype Option<+T> = None | Some(value: T)

  /** A number-or-undefined is truthy when it is defined and non-zero
      (NaN, the other falsy number, is not modelled). */
  predicate Truthy(x: Option<real>) {
    x.Some? && x.value != 0.0
  }
}
