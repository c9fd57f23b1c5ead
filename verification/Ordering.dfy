/**
 * Sorting by a comparator that is a strict total order on what it sorts. The result depends on
 * the set of elements only, not on the order in which they were enumerated.
 */
module Ordering {

  /** Lexicographic order on ranks of one length, as a comparator that tests field by field. */
  predicate Less(a: seq<int>, b: seq<int>)
    requires |a| == |b|
  {
    a != [] && (a[0] < b[0] || (a[0] == b[0] && Less(a[1..], b[1..])))
  }

  lemma {:induction false} LessIrreflexive(a: seq<int>)
    ensures !Less(a, a)
  {
    if a != [] {
      LessIrreflexive(a[1..]);
    }
  }

  lemma {:induction false} LessTransitive(a: seq<int>, b: seq<int>, c: seq<int>)
    requires |a| == |b| == |c| && Less(a, b) && Less(b, c)
    ensures Less(a, c)
  {
    if a[0] == b[0] == c[0] {
      LessTransitive(a[1..], b[1..], c[1..]);
    }
  }

  lemma {:induction false} LessTotal(a: seq<int>, b: seq<int>)
    requires |a| == |b|
    ensures a == b || Less(a, b) || Less(b, a)
  {
    if a != [] && a[0] == b[0] {
      LessTotal(a[1..], b[1..]);
      assert a == [a[0]] + a[1..] && b == [b[0]] + b[1..];
    }
  }

  /** Elements whose ranks have one length and tell them apart. */
  ghost predicate Comparable<T(!new)>(s: set<T>, rank: T -> seq<int>) {
    && (forall x, y :: x in s && y in s ==> |rank(x)| == |rank(y)|)
    && (forall x, y :: x in s && y in s && rank(x) == rank(y) ==> x == y)
  }

  ghost predicate Sorted<T>(r: seq<T>, rank: T -> seq<int>) {
    forall i, j :: 0 <= i < j < |r| ==> |rank(r[i])| == |rank(r[j])| && Less(rank(r[i]), rank(r[j]))
  }

  ghost predicate IsSortOf<T(!new)>(r: seq<T>, s: set<T>, rank: T -> seq<int>) {
    Sorted(r, rank) && forall x :: x in r <==> x in s
  }

  /** There is one way to sort a set. */
  lemma {:induction false} SortUnique<T(!new)>(a: seq<T>, b: seq<T>, s: set<T>, rank: T -> seq<int>)
    requires IsSortOf(a, s, rank) && IsSortOf(b, s, rank)
    ensures a == b
    decreases |a|
  {
    if a != [] || b != [] {
      var x := if a != [] then a[0] else b[0];
      assert x in s && x in a && x in b;
      SameFirst(a, b, s, rank);
      var rest := s - {a[0]};
      SortTail(a, s, rank);
      SortTail(b, s, rank);
      SortUnique(a[1..], b[1..], rest, rank);
      assert a == [a[0]] + a[1..] && b == [b[0]] + b[1..];
    }
  }

  lemma SameFirst<T(!new)>(a: seq<T>, b: seq<T>, s: set<T>, rank: T -> seq<int>)
    requires IsSortOf(a, s, rank) && IsSortOf(b, s, rank) && a != [] && b != []
    ensures a[0] == b[0]
  {
    if a[0] != b[0] {
      assert a[0] in b && b[0] in a;
      var i :| 0 <= i < |b| && b[i] == a[0];
      var j :| 0 <= j < |a| && a[j] == b[0];
      LessTransitive(rank(a[0]), rank(b[0]), rank(a[0]));
      LessIrreflexive(rank(a[0]));
    }
  }

  lemma SortTail<T(!new)>(a: seq<T>, s: set<T>, rank: T -> seq<int>)
    requires IsSortOf(a, s, rank) && a != []
    ensures IsSortOf(a[1..], s - {a[0]}, rank)
  {
    var tail := a[1..];
    forall x ensures x in tail <==> x in s - {a[0]} {
      if x in tail {
        var i :| 0 <= i < |tail| && tail[i] == x;
        assert a[i + 1] == x;
        LessIrreflexive(rank(x));
      }
    }
  }

  // ---------- sort.Slice ----------

  function Insert<T>(x: T, r: seq<T>, rank: T -> seq<int>): seq<T> {
    if r == [] then [x]
    else if |rank(x)| == |rank(r[0])| && Less(rank(x), rank(r[0])) then [x] + r
    else [r[0]] + Insert(x, r[1..], rank)
  }

  function Sort<T>(keys: seq<T>, rank: T -> seq<int>): seq<T> {
    if keys == [] then [] else Insert(keys[0], Sort(keys[1..], rank), rank)
  }

  lemma {:induction false} InsertSorts<T(!new)>(x: T, r: seq<T>, s: set<T>, rank: T -> seq<int>)
    requires IsSortOf(r, s, rank) && x !in s && Comparable(s + {x}, rank)
    ensures IsSortOf(Insert(x, r, rank), s + {x}, rank)
    decreases |r|
  {
    if r != [] {
      assert r[0] in s && |rank(x)| == |rank(r[0])|;
      if Less(rank(x), rank(r[0])) {
        InsertFirst(x, r, s, rank);
      } else {
        LessTotal(rank(x), rank(r[0]));
        var rest := s - {r[0]};
        SortTail(r, s, rank);
        InsertSorts(x, r[1..], rest, rank);
        var q := Insert(x, r[1..], rank);
        forall i | 0 <= i < |q| ensures |rank(q[i])| == |rank(r[0])| && Less(rank(r[0]), rank(q[i])) {
          assert q[i] in rest + {x};
          if q[i] != x {
            var k :| 0 <= k < |r| && r[k] == q[i];
          }
        }
        assert rest + {x} + {r[0]} == s + {x};
      }
    }
  }

  lemma InsertFirst<T(!new)>(x: T, r: seq<T>, s: set<T>, rank: T -> seq<int>)
    requires IsSortOf(r, s, rank) && x !in s && Comparable(s + {x}, rank)
    requires r != [] && |rank(x)| == |rank(r[0])| && Less(rank(x), rank(r[0]))
    ensures IsSortOf([x] + r, s + {x}, rank)
  {
    forall i | 0 <= i < |r| ensures |rank(r[i])| == |rank(x)| && Less(rank(x), rank(r[i])) {
      if i > 0 {
        LessTransitive(rank(x), rank(r[0]), rank(r[i]));
      }
    }
  }

  predicate Distinct<T(==)>(keys: seq<T>) {
    forall i, j :: 0 <= i < j < |keys| ==> keys[i] != keys[j]
  }

  ghost function Elements<T>(keys: seq<T>): set<T> {
    set x | x in keys
  }

  /** However the elements were enumerated, sorting them gives the one sorted sequence of their set. */
  lemma {:induction false} SortSorts<T(!new)>(keys: seq<T>, rank: T -> seq<int>)
    requires Distinct(keys) && Comparable(Elements(keys), rank)
    ensures IsSortOf(Sort(keys, rank), Elements(keys), rank)
    decreases |keys|
  {
    if keys != [] {
      var rest := keys[1..];
      assert Elements(keys) == Elements(rest) + {keys[0]} by {
        assert keys == [keys[0]] + rest;
      }
      SortSorts(rest, rank);
      InsertSorts(keys[0], Sort(rest, rank), Elements(rest), rank);
    }
  }

  lemma {:induction false} Enumerate<T(!new)>(s: set<T>) returns (keys: seq<T>)
    ensures Distinct(keys) && Elements(keys) == s
    decreases |s|
  {
    if s == {} {
      keys := [];
    } else {
      var x :| x in s;
      var rest := Enumerate(s - {x});
      keys := [x] + rest;
      forall i | 0 <= i < |rest| ensures rest[i] != x {
        assert rest[i] in Elements(rest);
      }
      assert Elements(keys) == {x} + Elements(rest);
    }
  }

  /** The sorted sequence of a set. */
  ghost function SortOf<T(!new)>(s: set<T>, rank: T -> seq<int>): (r: seq<T>)
    ensures Comparable(s, rank) ==> IsSortOf(r, s, rank)
  {
    if !Comparable(s, rank) then []
    else
      assert exists r :: IsSortOf(r, s, rank) by {
        var keys := Enumerate(s);
        SortSorts(keys, rank);
      }
      var r :| IsSortOf(r, s, rank);
      r
  }

  /** The result of sort.Slice does not depend on the order in which a map was ranged over. */
  lemma SortIsSortOf<T(!new)>(keys: seq<T>, s: set<T>, rank: T -> seq<int>)
    requires Distinct(keys) && Elements(keys) == s && Comparable(s, rank)
    ensures Sort(keys, rank) == SortOf(s, rank)
  {
    SortSorts(keys, rank);
    SortUnique(Sort(keys, rank), SortOf(s, rank), s, rank);
  }

  lemma SortedDistinct<T(!new)>(r: seq<T>, rank: T -> seq<int>)
    requires Sorted(r, rank)
    ensures Distinct(r)
  {
    forall i, j | 0 <= i < j < |r| ensures r[i] != r[j] {
      if r[i] == r[j] {
        LessIrreflexive(rank(r[i]));
      }
    }
  }

  /** The keys of a map from numbers in increasing order. */
  function SortedIndexes(indexes: set<int>): (r: seq<int>)
    ensures forall i :: i in r <==> i in indexes
    ensures forall i, j :: 0 <= i < j < |r| ==> r[i] < r[j]
  {
    if indexes == {} then []
    else
      ThereIsALeast(indexes);
      var m :| IsLeast(m, indexes);
      [m] + SortedIndexes(indexes - {m})
  }

  predicate IsLeast(m: int, indexes: set<int>) {
    m in indexes && forall i :: i in indexes ==> m <= i
  }

  lemma {:induction false} ThereIsALeast(indexes: set<int>)
    requires indexes != {}
    ensures exists m :: IsLeast(m, indexes)
    decreases indexes
  {
    var keys := Enumerate(indexes);
    LeastBelow(keys[0], indexes);
  }

  function Below(x: int, indexes: set<int>): set<int> {
    set i | i in indexes && i < x
  }

  lemma {:induction false} LeastBelow(x: int, indexes: set<int>)
    requires x in indexes
    ensures exists m :: IsLeast(m, indexes)
    decreases Below(x, indexes)
  {
    if y :| y in indexes && y < x {
      assert y in Below(x, indexes) && y !in Below(y, indexes);
      assert forall i :: i in Below(y, indexes) ==> i in Below(x, indexes);
      LeastBelow(y, indexes);
    } else {
      assert IsLeast(x, indexes);
    }
  }
}
