/**
 * What the client's JavaScript does with strings: truthiness, `trim() === ''`
 * and `.length`. JavaScript strings are sequences of UTF-16 code units, so
 * `.length` counts a character outside the Basic Multilingual Plane twice.
 * Here a string is a sequence of Unicode scalar values and `JsLength` gives
 * the JavaScript length.
 */
module JsValues {
  import opened Wrappers

  /** The characters `String.prototype.trim` removes: ECMAScript WhiteSpace and LineTerminator. */
  predicate IsJsWhitespace(c: char)
  {
    || c == '\t' || c == '\U{B}' || c == '\U{C}' || c == ' ' || c == '\U{A0}' || c == '\U{FEFF}'
    || c == '\n' || c == '\r' || c == '\U{2028}' || c == '\U{2029}'
    || c == '\U{1680}' || ('\U{2000}' <= c <= '\U{200A}') || c == '\U{202F}' || c == '\U{205F}' || c == '\U{3000}'
  }

  /** `s.trim() === ''`: every character of `s` is whitespace (so the empty string is blank). */
  predicate IsBlank(s: string)
  {
    forall i :: 0 <= i < |s| ==> IsJsWhitespace(s[i])
  }

  /** JavaScript truthiness of a possibly missing string: present and not empty. */
  predicate Truthy(s: Option<string>)
  {
    s.Some? && s.value != ""
  }

  /** The number of UTF-16 code units of `c`. */
  function CodeUnits(c: char): nat
  {
    if c as int > 0xFFFF then 2 else 1
  }

  /** JavaScript's `.length` of `s`. */
  function JsLength(s: string): nat
  {
    if s == [] then 0 else CodeUnits(s[0]) + JsLength(s[1..])
  }

  /** A JavaScript length is never below the number of characters and at most twice it. */
  lemma {:induction false} JsLengthBounds(s: string)
    ensures |s| <= JsLength(s) <= 2 * |s|
  {
    if s != [] {
      JsLengthBounds(s[1..]);
    }
  }
}
