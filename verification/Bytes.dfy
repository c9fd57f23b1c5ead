/** The values every component shares. */
module Bytes {

  /** A byte string; every char stands for one byte. */
  type Bytes = string

  datatype Option<+T> = None | Some(value: T) {
    function GetOr(default: T): T {
      if Some? then value else default
    }
  }

  predicate HasPrefix(s: Bytes, prefix: Bytes) {
    prefix <= s
  }

  predicate HasSuffix(s: Bytes, suffix: Bytes) {
    |suffix| <= |s| && s[|s| - |suffix|..] == suffix
  }

  predicate Contains(s: Bytes, part: Bytes) {
    |part| <= |s| && (part <= s || Contains(s[1..], part))
  }

  lemma Associative<T>(a: seq<T>, b: seq<T>, c: seq<T>)
    ensures (a + b) + c == a + (b + c)
  {
  }

  lemma {:induction false} DistinctCount<T>(s: seq<T>, m: set<T>)
    requires forall i, j :: 0 <= i < j < |s| ==> s[i] != s[j]
    requires forall x :: x in m <==> x in s
    ensures |m| == |s|
    decreases |s|
  {
    if s == [] {
      assert m == {};
    } else {
      var n := |s| - 1;
      DistinctCount(s[..n], m - {s[n]});
    }
  }

  lemma SmallerSet<T>(a: set<T>, b: set<T>)
    requires a <= b
    ensures |a| <= |b|
    ensures a != b ==> |a| < |b|
  {
    assert b == a + (b - a);
    assert a != b ==> b - a != {};
  }
}
