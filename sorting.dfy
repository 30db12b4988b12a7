/** Sorting a sequence by a total preorder, and what taking a prefix of the
    sorted sequence keeps and leaves out. */
module Sorting {

  ghost predicate TotalPreorder<T(!new)>(le: (T, T) -> bool) {
    && (forall a, b :: le(a, b) || le(b, a))
    && (forall a, b, c :: le(a, b) && le(b, c) ==> le(a, c))
  }

  predicate Sorted<T>(s: seq<T>, le: (T, T) -> bool) {
    forall i, j :: 0 <= i < j < |s| ==> le(s[i], s[j])
  }

  /** `x` may come before every element of `s`. */
  predicate Precedes<T>(x: T, s: seq<T>, le: (T, T) -> bool) {
    forall i :: 0 <= i < |s| ==> le(x, s[i])
  }

  /** Inserts `x` before the first element it may precede. */
  function Insert<T>(x: T, s: seq<T>, le: (T, T) -> bool): (r: seq<T>)
    ensures multiset(r) == multiset(s) + multiset{x}
  {
    if s == [] then [x]
    else if le(x, s[0]) then [x] + s
    else
      assert s == [s[0]] + s[1..];
      [s[0]] + Insert(x, s[1..], le)
  }

  lemma PrecedesPermutation<T>(x: T, a: seq<T>, b: seq<T>, le: (T, T) -> bool)
    requires multiset(a) <= multiset(b) && Precedes(x, b, le)
    ensures Precedes(x, a, le)
  {
    forall i | 0 <= i < |a| ensures le(x, a[i]) {
      assert a[i] in multiset(b);
      var j :| 0 <= j < |b| && b[j] == a[i];
    }
  }

  lemma {:induction false} InsertSorted<T(!new)>(x: T, s: seq<T>, le: (T, T) -> bool)
    requires TotalPreorder(le) && Sorted(s, le)
    ensures Sorted(Insert(x, s, le), le)
  {
    if s == [] {
    } else if le(x, s[0]) {
      assert Precedes(x, s, le);
      ConsSorted(x, s, le);
    } else {
      var rest := Insert(x, s[1..], le);
      InsertSorted(x, s[1..], le);
      assert Precedes(s[0], s[1..] + [x], le);
      assert multiset(rest) == multiset(s[1..] + [x]);
      PrecedesPermutation(s[0], rest, s[1..] + [x], le);
      ConsSorted(s[0], rest, le);
    }
  }

  /** A sorted sequence stays sorted behind an element that precedes it. */
  lemma ConsSorted<T>(y: T, s: seq<T>, le: (T, T) -> bool)
    requires Sorted(s, le) && Precedes(y, s, le)
    ensures Sorted([y] + s, le)
  {
    var r := [y] + s;
    forall i, j | 0 <= i < j < |r| ensures le(r[i], r[j]) {
      if i == 0 { assert r[j] == s[j - 1]; } else { assert r[i] == s[i - 1] && r[j] == s[j - 1]; }
    }
  }

  /** Insertion sort. */
  function SortBy<T>(s: seq<T>, le: (T, T) -> bool): (r: seq<T>)
    ensures multiset(r) == multiset(s)
    ensures |r| == |s|
  {
    if s == [] then []
    else
      assert s == [s[0]] + s[1..];
      Insert(s[0], SortBy(s[1..], le), le)
  }

  lemma {:induction false} SortBySorted<T(!new)>(s: seq<T>, le: (T, T) -> bool)
    requires TotalPreorder(le)
    ensures Sorted(SortBy(s, le), le)
  {
    if s != [] {
      SortBySorted(s[1..], le);
      InsertSorted(s[0], SortBy(s[1..], le), le);
    }
  }

  /** The first `n` elements of a sorted sequence: every element left out may
      come after every element kept. */
  lemma PrefixOfSorted<T>(s: seq<T>, n: nat, le: (T, T) -> bool)
    requires Sorted(s, le) && n <= |s|
    ensures Sorted(s[..n], le)
    ensures forall d, e :: e in s[..n] && multiset(s[..n])[d] < multiset(s)[d] ==> le(e, d)
  {
    var r := s[..n];
    assert s == r + s[n..];
    assert multiset(s) == multiset(r) + multiset(s[n..]);
    forall d, e | e in r && multiset(r)[d] < multiset(s)[d] ensures le(e, d) {
      assert d in multiset(s[n..]);
      var j :| 0 <= j < |s[n..]| && s[n..][j] == d;
      var i :| 0 <= i < n && r[i] == e;
      assert s[i] == e && s[n + j] == d;
    }
  }
}
