/** Option and the JavaScript/Python notion of a "truthy" optional string. */
module Wrappers {

  datatype Option<+T> = None | Some(value: T)

  /** `if x` on a value that is either None/null or a string: true for a non-empty string. */
  predicate Truthy(o: Option<string>) {
    o.Some? && o.value != ""
  }
}
