/** The few JavaScript and Ramda behaviours the component relies on. */
module Js {
  import opened Wrappers

  /** JavaScript truthiness of an optional string: `undefined`, `null` and `''` are falsy. */
  predicate Truthy(s: Option<string>) {
    s.Some? && s.value != ""
  }

  /** Ramda's `head`, and equally `s[0]` or `const [x] = s`: `undefined` on an empty array. */
  function Head<T>(s: seq<T>): Option<T> {
    if s == [] then None else Some(s[0])
  }

  /** Ramda's `last`: `undefined` on an empty array. */
  function Last<T>(s: seq<T>): Option<T> {
    if s == [] then None else Some(s[|s| - 1])
  }
}
