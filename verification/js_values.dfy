/** The pieces of JavaScript value semantics the server's configuration code
    relies on: an environment variable that may be `undefined`, truthiness of
    a string, the `||` default operator, and `String.prototype.toLowerCase`
    restricted to ASCII letters. */
module JsValues {

  /** An environment value: `None` is `undefined`, `Some(s)` a string that is set
      (possibly to the empty string). */
  datatype Option<+T> = None | Some(value: T)

  /** JavaScript truthiness of an optional string: `undefined` and `""` are falsy,
      every other string is truthy. */
  predicate Truthy(v: Option<string>) {
    v.Some? && v.value != ""
  }

  /** `v || fallback` where `v` is an optional string. */
  function OrElse(v: Option<string>, fallback: string): string {
    if Truthy(v) then v.value else fallback
  }

  predicate IsAsciiUpper(c: char) {
    'A' <= c <= 'Z'
  }

  /** `toLowerCase` on one character, ASCII letters only: the result is never
      an upper-case letter, and the only characters that change are upper-case
      letters, each moved to its lower-case partner 32 code points up. */
  function LowerChar(c: char): (d: char)
    ensures !IsAsciiUpper(d)
    ensures d != c ==> IsAsciiUpper(c) && d as int == c as int + 32
  {
    if IsAsciiUpper(c) then (c as int + 32) as char else c
  }

  /** `toLowerCase` on a string: character by character, same length. */
  function AsciiLower(s: string): (r: string)
    ensures |r| == |s|
    ensures forall i :: 0 <= i < |s| ==> r[i] == LowerChar(s[i])
  {
    if s == [] then [] else [LowerChar(s[0])] + AsciiLower(s[1..])
  }
}
