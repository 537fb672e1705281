/** Substring and prefix tests on strings, as Python's `in` and `str.startswith`. */
module Text {

  /** Python's `s.startswith(prefix)`. */
  predicate StartsWith(s: string, prefix: string)
  {
    |prefix| <= |s| && s[..|prefix|] == prefix
  }

  /** `sub` occurs in `s` starting at position `i`. */
  predicate OccursAt(s: string, sub: string, i: int)
  {
    0 <= i <= |s| - |sub| && s[i..i + |sub|] == sub
  }

  /** Python's `sub in s`: `sub` occurs at some position of `s`. */
  predicate Contains(s: string, sub: string)
  {
    exists i | 0 <= i <= |s| - |sub| :: OccursAt(s, sub, i)
  }

  /** A prefix of `p` is a prefix of every extension of `p`. */
  lemma PrefixOfAppend(p: string, rest: string, q: string)
    requires StartsWith(p, q)
    ensures StartsWith(p + rest, q)
  {
    assert (p + rest)[..|q|] == p[..|q|];
  }

  /** Whatever occurs inside `mid` occurs inside `pre + mid + post`. */
  lemma ContainsInMiddle(pre: string, mid: string, post: string, sub: string)
    requires Contains(mid, sub)
    ensures Contains(pre + mid + post, sub)
  {
    var i :| 0 <= i <= |mid| - |sub| && OccursAt(mid, sub, i);
    var s := pre + mid + post;
    assert s[|pre| + i..|pre| + i + |sub|] == mid[i..i + |sub|];
    assert OccursAt(s, sub, |pre| + i);
  }

  /** Two prefixes that disagree at a position within both cannot both start `s`. */
  lemma DisagreeingPrefixes(s: string, p: string, q: string, k: nat)
    requires k < |p| && k < |q| && p[k] != q[k]
    ensures !(StartsWith(s, p) && StartsWith(s, q))
  {
    if StartsWith(s, p) && |q| <= |s| {
      assert s[..|p|][k] == s[k] == s[..|q|][k];
    }
  }
}
