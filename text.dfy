/** Python's `str.lower`, `str.upper` and `str.endswith`, on ASCII letters. */
module Text {

  predicate IsUpperAscii(c: char) {
    'A' <= c <= 'Z'
  }

  predicate IsLowerAscii(c: char) {
    'a' <= c <= 'z'
  }

  function LowerChar(c: char): (r: char)
    ensures !IsUpperAscii(r)
    ensures IsUpperAscii(c) ==> r as int == c as int + 32
    ensures !IsUpperAscii(c) ==> r == c
  {
    if IsUpperAscii(c) then (c as int + 32) as char else c
  }

  function UpperChar(c: char): (r: char)
    ensures !IsLowerAscii(r)
    ensures IsLowerAscii(c) ==> r as int == c as int - 32
    ensures !IsLowerAscii(c) ==> r == c
  {
    if IsLowerAscii(c) then (c as int - 32) as char else c
  }

  /** `s.lower()`: the same length, each character mapped on its own. */
  function Lower(s: string): (r: string)
    ensures |r| == |s|
    ensures forall k :: 0 <= k < |s| ==> r[k] == LowerChar(s[k])
  {
    seq(|s|, k requires 0 <= k < |s| => LowerChar(s[k]))
  }

  /** `s.upper()`: the same length, each character mapped on its own. */
  function Upper(s: string): (r: string)
    ensures |r| == |s|
    ensures forall k :: 0 <= k < |s| ==> r[k] == UpperChar(s[k])
  {
    seq(|s|, k requires 0 <= k < |s| => UpperChar(s[k]))
  }

  /** `s.endswith(suffix)`. */
  predicate EndsWith(s: string, suffix: string) {
    |suffix| <= |s| && s[|s| - |suffix|..] == suffix
  }

  /** A string without lower-case letters is its own upper-case form. */
  lemma UpperOfUpper(s: string)
    requires forall k :: 0 <= k < |s| ==> !IsLowerAscii(s[k])
    ensures Upper(s) == s
  {
  }

  /** Two strings that upper-case alike also lower-case alike. */
  lemma SameUpperSameLower(s: string, t: string)
    requires Upper(s) == Upper(t)
    ensures Lower(s) == Lower(t)
  {
  }
}
