/** Optional values and JavaScript's `||` fallback on optional strings. */
module Values {

  /** A value that may be absent: `null` or `undefined` on the JavaScript side. */
  datatype Option<+T> = None | Some(value: T)

  /** True when `s` is falsy in JavaScript: absent or the empty string. */
  predicate Falsy(s: Option<string>)
    ensures !Falsy(s) ==> s.Some? && |s.value| > 0
  {
    s.None? || s.value == ""
  }

  /** `s || fallback` for an optional string: a truthy `s` wins, otherwise `fallback`. */
  function Or(s: Option<string>, fallback: string): (r: string)
    ensures Falsy(s) ==> r == fallback
    ensures !Falsy(s) ==> r == s.value && r != ""
  {
    if Falsy(s) then fallback else s.value
  }
}
