/** Small shared vocabulary: an optional value, absolute value on reals and
    the number of occurrences of a value in a sequence (Python's list.count). */
module Basics {

  datatype Option<+T> = None | Some(value: T)

  function Abs(x: real): (r: real)
    ensures r >= 0.0
    ensures r == x || r == -x
  {
    if x < 0.0 then -x else x
  }

  /** Number of occurrences of `x` in `s`. */
  function Count<T(==)>(s: seq<T>, x: T): nat
  {
    if |s| == 0 then 0
    else (if s[0] == x then 1 else 0) + Count(s[1..], x)
  }

  /** `x` occurs in `s` at least twice exactly when two distinct positions hold it. */
  lemma {:induction false} CountAtLeastTwo<T>(s: seq<T>, x: T)
    ensures Count(s, x) > 1 <==>
            exists i, j :: 0 <= i < j < |s| && s[i] == x && s[j] == x
  {
    if |s| == 0 {
    } else {
      CountAtLeastTwo(s[1..], x);
      CountPositive(s[1..], x);
      if Count(s, x) > 1 {
        if s[0] == x {
          var k :| 0 <= k < |s[1..]| && s[1..][k] == x;
          assert s[0] == x && s[k + 1] == x;
        } else {
          var i, j :| 0 <= i < j < |s[1..]| && s[1..][i] == x && s[1..][j] == x;
          assert s[i + 1] == x && s[j + 1] == x;
        }
      }
      if i, j :| 0 <= i < j < |s| && s[i] == x && s[j] == x {
        assert s[1..][j - 1] == x;
        if i > 0 {
          assert s[1..][i - 1] == x;
        }
      }
    }
  }

  /** `x` occurs in `s` at all exactly when some position holds it. */
  lemma {:induction false} CountPositive<T>(s: seq<T>, x: T)
    ensures Count(s, x) > 0 <==> exists k :: 0 <= k < |s| && s[k] == x
  {
    if |s| > 0 {
      CountPositive(s[1..], x);
      if Count(s[1..], x) > 0 {
        var k :| 0 <= k < |s[1..]| && s[1..][k] == x;
        assert s[k + 1] == x;
      }
      if k :| 0 < k < |s| && s[k] == x {
        assert s[1..][k - 1] == x;
      }
    }
  }
}
