/** Optional values, and the JavaScript `value || fallback` idiom on optional strings. */
module Wrappers {

  datatype Option<+T> = None | Some(value: T)

  /** A present, non-empty string: the values JavaScript treats as truthy. */
  predicate Truthy(s: Option<string>) {
    s.Some? && s.value != ""
  }

  /** `s || fallback`: an absent or empty string falls back to `fallback`. */
  function Or(s: Option<string>, fallback: string): (r: string)
    ensures Truthy(s) ==> r == s.value
    ensures !Truthy(s) ==> r == fallback
    ensures fallback != "" ==> r != ""
  {
    if Truthy(s) then s.value else fallback
  }
}
