/**
 * The pieces of JavaScript string semantics the server relies on:
 * `substr`, the white-space set that `parseFloat`, `parseInt` and `Number`
 * skip, and decimal digit strings.
 */
module JsStrings {

  function Min(a: int, b: int): int { if a <= b then a else b }

  /** `s.substr(start, length)` for non-negative arguments: both ends are clamped to `s`. */
  function Substr(s: string, start: nat, length: nat): (r: string)
    ensures |r| == if start < |s| then Min(length, |s| - start) else 0
  {
    if start < |s| then s[start .. Min(start + length, |s|)] else ""
  }

  predicate IsDigit(c: char) { '0' <= c <= '9' }

  predicate AllDigits(s: string) { forall i :: 0 <= i < |s| ==> IsDigit(s[i]) }

  function DigitValue(c: char): (v: nat)
    requires IsDigit(c)
    ensures v <= 9
  {
    (c as int) - ('0' as int)
  }

  /** The value of a string of decimal digits (the empty string reads as 0). */
  function DecimalValue(d: string): nat
    requires AllDigits(d)
    decreases |d|
  {
    if d == "" then 0 else 10 * DecimalValue(d[..|d| - 1]) + DigitValue(d[|d| - 1])
  }

  /**
   * The characters ECMAScript's StrWhiteSpaceChar admits: WhiteSpace (tab,
   * vertical tab, form feed, ZWNBSP and the Unicode "Zs" space separators)
   * and LineTerminator (LF, CR, LS, PS).
   */
  predicate IsJsWhiteSpace(c: char)
  {
    c == '\t' || c == '\U{B}' || c == '\U{C}' || c == ' ' || c == '\U{A0}' || c == '\U{FEFF}'
    || c == '\U{1680}' || ('\U{2000}' <= c <= '\U{200A}') || c == '\U{202F}' || c == '\U{205F}'
    || c == '\U{3000}' || c == '\n' || c == '\r' || c == '\U{2028}' || c == '\U{2029}'
  }
}
