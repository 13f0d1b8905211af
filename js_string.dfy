/**
 * The two JavaScript string operations the wallet display uses,
 * `String.prototype.slice` and `String.prototype.repeat`, over strings
 * modelled as sequences of characters (one `char` per code unit).
 */
module JsString {

  function Min(a: int, b: int): int { if a < b then a else b }

  /**
   * The position a `slice` bound resolves to in a string of length `len`:
   * a negative bound counts back from the end, and a bound outside
   * `0..len` is clamped to the nearer end.
   */
  function ResolveIndex(i: int, len: nat): (r: nat)
    ensures r <= len
  {
    if i < 0 then (if len + i < 0 then 0 else len + i)
    else if i < len then i
    else len
  }

  /** `s.slice(start, end)`: empty when the resolved start is not before the resolved end. */
  function Slice(s: string, start: int, end: int): (r: string)
    ensures |r| <= |s|
  {
    var from := ResolveIndex(start, |s|);
    var to := ResolveIndex(end, |s|);
    if from < to then s[from..to] else []
  }

  /** `s.slice(start)`: the end bound defaults to the length of `s`. */
  function SliceFrom(s: string, start: int): (r: string)
    ensures |r| <= |s|
  {
    Slice(s, start, |s|)
  }

  /** `c.repeat(n)` for a one-character string `c`. */
  function Repeat(c: char, n: nat): (r: string)
    ensures |r| == n
    ensures forall i | 0 <= i < n :: r[i] == c
  {
    if n == 0 then [] else [c] + Repeat(c, n - 1)
  }

  /** `s.slice(0, n)` is the first `n` characters, or all of `s` when it is shorter. */
  lemma SliceHead(s: string, n: nat)
    ensures Slice(s, 0, n) == s[..Min(n, |s|)]
  {
  }

  /**
   * `s.slice(-n)` for a positive `n` is the last `n` characters, or all
   * of `s` when it is shorter.
   */
  lemma SliceTail(s: string, n: nat)
    requires 0 < n
    ensures SliceFrom(s, -(n as int)) == s[|s| - Min(n, |s|)..]
  {
  }
}
