/** The few pieces of JavaScript semantics the Worker relies on. */
module Js {
  import opened Wrappers

  /** JavaScript truthiness of a string-valued field: `undefined` (and every
      other falsy value, which behaves the same here) is `None`, and the
      empty string is falsy too. */
  predicate Truthy(v: Option<string>) {
    v.Some? && v.value != ""
  }

  /** `v || fallback` for a string-valued field. */
  function OrElse(v: Option<string>, fallback: string): string {
    if Truthy(v) then v.value else fallback
  }

  function Min(a: int, b: int): int {
    if a <= b then a else b
  }

  /** Clamps a position into `[0, len]`, as `String.prototype.substring` does. */
  function Clamp(x: int, len: nat): (r: nat)
    ensures r <= len
    ensures 0 <= x <= len ==> r == x
  {
    if x < 0 then 0 else if x > len then len else x
  }

  /** `s.substring(start, end)`: both positions are clamped into the string
      and swapped when they come in the wrong order. */
  function Substring(s: string, start: int, end: int): (r: string)
    ensures |r| <= |s|
    ensures 0 <= start <= end <= |s| ==> r == s[start..end]
  {
    var a, b := Clamp(start, |s|), Clamp(end, |s|);
    if a <= b then s[a..b] else s[b..a]
  }

  /** Out-of-range positions act as the nearest end of the string, and
      positions given in the wrong order act as if swapped. */
  lemma SubstringNormalises(s: string, start: int, end: int)
    ensures Substring(s, start, end) == Substring(s, Clamp(start, |s|), Clamp(end, |s|))
    ensures Substring(s, start, end) == Substring(s, end, start)
  {
  }

  /** `t` occurs somewhere in `s`. */
  predicate Contains(s: string, t: string) {
    exists i :: 0 <= i <= |s| && t <= s[i..]
  }

  /** A string occurs at the end of any concatenation that ends with it. */
  lemma ContainsSuffix(p: string, t: string)
    ensures Contains(p + t, t)
  {
    assert (p + t)[|p|..] == t;
  }

  /** An occurrence survives appending text on the right. */
  lemma ContainsExtended(s: string, t: string, q: string)
    requires Contains(s, t)
    ensures Contains(s + q, t)
  {
    var i :| 0 <= i <= |s| && t <= s[i..];
    assert (s + q)[i..] == s[i..] + q;
  }

  /** Witness for `Contains`: a string occurs in any concatenation that has it in the middle. */
  lemma ContainsMiddle(p: string, t: string, q: string)
    ensures Contains(p + t + q, t)
  {
    var s := p + t + q;
    assert s[|p|..] == t + q;
  }
}
