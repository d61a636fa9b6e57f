/** Optional values: a field that a request body or query string may leave out. */
module Wrappers {

  datatype Option<+T> = None | Some(value: T)

  /** A JavaScript string in a boolean position: present and not the empty string. */
  predicate Truthy(s: Option<string>)
  {
    s.Some? && s.value != ""
  }
}
