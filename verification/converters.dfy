/** The two value converters used by the attrs records: `upper` and `xstr`. */
module Converters {
  import opened Wrappers

  predicate IsLowerAscii(c: char) {
    'a' <= c <= 'z'
  }

  /** Upper-case mapping of one character (ASCII letters only). */
  function UpperChar(c: char): char {
    if IsLowerAscii(c) then (c as int - 32) as char else c
  }

  /** `str.upper()` on a string. */
  function UpperStr(s: string): (r: string)
    ensures |r| == |s|
    ensures forall i :: 0 <= i < |s| ==> r[i] == UpperChar(s[i])
  {
    if s == [] then [] else [UpperChar(s[0])] + UpperStr(s[1..])
  }

  /** `upper(value)`: None becomes the empty string, anything else is upper-cased. */
  function Upper(value: Option<string>): (r: string)
    ensures value.None? ==> r == ""
    ensures |r| == |value.GetOr("")|
    ensures forall i :: 0 <= i < |r| ==> !IsLowerAscii(r[i])
  {
    match value
    case None => ""
    case Some(s) => UpperStr(s)
  }

  /** `xstr(value)`: None becomes the empty string, a string stays as it is. */
  function Xstr(value: Option<string>): (r: string)
    ensures value.None? ==> r == ""
    ensures value.Some? ==> r == value.value
  {
    value.GetOr("")
  }

  /** Upper-casing leaves no lower-case ASCII letter and keeps every other
      character where it was. */
  lemma UpperStrShape(s: string)
    ensures forall i :: 0 <= i < |s| ==> !IsLowerAscii(UpperStr(s)[i])
    ensures forall i :: 0 <= i < |s| && !IsLowerAscii(s[i]) ==> UpperStr(s)[i] == s[i]
  {
  }

  /** `upper(None)` is the empty string; `upper` keeps the length of a string. */
  lemma UpperBasics(s: string)
    ensures Upper(None) == ""
    ensures |Upper(Some(s))| == |s|
  {
  }

  /** `upper` is idempotent. */
  lemma {:induction false} UpperIdempotent(value: Option<string>)
    ensures Upper(Some(Upper(value))) == Upper(value)
  {
    match value
    case None =>
    case Some(s) => UpperStrIdempotent(s);
  }

  lemma {:induction false} UpperStrIdempotent(s: string)
    ensures UpperStr(UpperStr(s)) == UpperStr(s)
  {
    if s != [] {
      UpperStrIdempotent(s[1..]);
      assert UpperStr(s) == [UpperChar(s[0])] + UpperStr(s[1..]);
    }
  }

  /** Upper-casing distributes over concatenation. */
  lemma {:induction false} UpperStrAppend(a: string, b: string)
    ensures UpperStr(a + b) == UpperStr(a) + UpperStr(b)
  {
    if a != [] {
      UpperStrAppend(a[1..], b);
      assert (a + b)[1..] == a[1..] + b;
    }
  }
}
