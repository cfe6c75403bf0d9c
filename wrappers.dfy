/** Small shared vocabulary: an optional value, and JavaScript truthiness
    of a `string | null | undefined`. */
module Wrappers {

  datatype Option<T> = None | Some(value: T)

  /** A JavaScript string value is truthy when it is present and non-empty. */
  predicate Truthy(s: Option<string>)
  {
    s.Some? && s.value != ""
  }
}
