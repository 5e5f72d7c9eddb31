/** Python's slice expressions `s[:stop]` and `s[start:]` on sequences. */
module Slices {

  function Min(a: int, b: int): int {
    if a <= b then a else b
  }

  /** Python's normalisation of a slice bound against a sequence of length `len`:
      a negative bound counts from the end, and the result is clamped to 0..len. */
  function Bound(i: int, len: nat): (r: nat)
    ensures r <= len
  {
    if i < 0 then (if len + i < 0 then 0 else len + i)
    else if i > len then len
    else i
  }

  /** `s[:stop]` */
  function SliceTo<T>(s: seq<T>, stop: int): seq<T> {
    s[..Bound(stop, |s|)]
  }

  /** `s[start:]` */
  function SliceFrom<T>(s: seq<T>, start: int): seq<T> {
    s[Bound(start, |s|)..]
  }

  /** A non-negative stop keeps the first `min(stop, |s|)` elements. */
  lemma SliceToPrefix<T>(s: seq<T>, stop: int)
    requires 0 <= stop
    ensures SliceTo(s, stop) == s[..Min(stop, |s|)]
  {
  }

  /** A start of `-k` keeps the last `min(k, |s|)` elements, for positive `k`
      only: `s[-0:]` is `s[0:]`, the whole sequence. */
  lemma SliceFromSuffix<T>(s: seq<T>, k: int)
    requires 0 < k
    ensures SliceFrom(s, -k) == s[|s| - Min(k, |s|)..]
  {
  }
}
