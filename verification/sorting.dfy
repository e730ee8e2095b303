/**
 * `Array.prototype.sort` with a comparator, as a stable insertion sort over
 * sequences, and the plain lexicographic order on strings that stands for
 * `localeCompare`.
 */
module Sorting {

  /** `le(a, b)`: a may come before b. The comparators of the source all induce a total preorder. */
  ghost predicate TotalPreorder<T(!new)>(le: (T, T) -> bool) {
    && (forall a, b :: le(a, b) || le(b, a))
    && (forall a, b, c :: le(a, b) && le(b, c) ==> le(a, c))
  }

  predicate SortedBy<T>(s: seq<T>, le: (T, T) -> bool) {
    forall i, j :: 0 <= i < j < |s| ==> le(s[i], s[j])
  }

  /** Put x in front of the first element it may precede. */
  function Insert<T>(x: T, s: seq<T>, le: (T, T) -> bool): seq<T> {
    if s == [] then [x]
    else if le(x, s[0]) then [x] + s
    else [s[0]] + Insert(x, s[1..], le)
  }

  /** The sorted copy of s; among elements that compare equal the input order is kept. */
  function Sort<T>(s: seq<T>, le: (T, T) -> bool): seq<T> {
    if s == [] then [] else Insert(s[0], Sort(s[1..], le), le)
  }

  lemma {:induction false} InsertPermutes<T>(x: T, s: seq<T>, le: (T, T) -> bool)
    ensures multiset(Insert(x, s, le)) == multiset(s) + multiset{x}
  {
    if s != [] && !le(x, s[0]) {
      InsertPermutes(x, s[1..], le);
      assert s == [s[0]] + s[1..];
    }
  }

  lemma {:induction false} InsertSorted<T(!new)>(x: T, s: seq<T>, le: (T, T) -> bool)
    requires TotalPreorder(le)
    requires SortedBy(s, le)
    ensures SortedBy(Insert(x, s, le), le)
  {
    if s != [] && !le(x, s[0]) {
      var t := Insert(x, s[1..], le);
      InsertSorted(x, s[1..], le);
      InsertPermutes(x, s[1..], le);
      assert le(s[0], x);
      forall k | 0 <= k < |t| ensures le(s[0], t[k]) {
        assert t[k] in multiset(t);
        assert t[k] == x || t[k] in multiset(s[1..]);
        if t[k] != x {
          var m :| 0 <= m < |s[1..]| && s[1..][m] == t[k];
          assert s[1 + m] == t[k];
        }
      }
      var r := [s[0]] + t;
      forall i, j | 0 <= i < j < |r| ensures le(r[i], r[j]) {
        if i > 0 {
          assert r[i] == t[i - 1] && r[j] == t[j - 1];
        }
      }
    }
  }

  /** `Sort` returns a sorted permutation of its input. */
  lemma {:induction false} SortCorrect<T(!new)>(s: seq<T>, le: (T, T) -> bool)
    requires TotalPreorder(le)
    ensures SortedBy(Sort(s, le), le)
    ensures multiset(Sort(s, le)) == multiset(s)
    ensures |Sort(s, le)| == |s|
  {
    if s != [] {
      SortCorrect(s[1..], le);
      InsertSorted(s[0], Sort(s[1..], le), le);
      InsertPermutes(s[0], Sort(s[1..], le), le);
      assert s == [s[0]] + s[1..];
    }
    assert |multiset(Sort(s, le))| == |multiset(s)|;
  }

  /** The comparator `(a, b) => key(b) - key(a)`: descending by a numeric key. */
  function ByKeyDesc<T>(key: T -> real): (T, T) -> bool {
    (a: T, b: T) => key(a) >= key(b)
  }

  lemma ByKeyDescIsTotalPreorder<T(!new)>(key: T -> real)
    ensures TotalPreorder(ByKeyDesc(key))
  {
  }

  /** Sorting descending by key gives non-increasing keys and the same elements. */
  lemma SortDescByKey<T(!new)>(s: seq<T>, key: T -> real)
    ensures |Sort(s, ByKeyDesc(key))| == |s|
    ensures multiset(Sort(s, ByKeyDesc(key))) == multiset(s)
    ensures forall i, j :: 0 <= i < j < |s| ==> key(Sort(s, ByKeyDesc(key))[i]) >= key(Sort(s, ByKeyDesc(key))[j])
  {
    ByKeyDescIsTotalPreorder(key);
    SortCorrect(s, ByKeyDesc(key));
  }

  /** `[...s].sort((a, b) => key(b) - key(a))`: the same elements, by non-increasing key. */
  function SortDesc<T(!new)>(s: seq<T>, key: T -> real): (r: seq<T>)
    ensures |r| == |s| && multiset(r) == multiset(s)
    ensures forall i, j :: 0 <= i < j < |r| ==> key(r[i]) >= key(r[j])
  {
    SortDescByKey(s, key);
    Sort(s, ByKeyDesc(key))
  }

  /** A sequence is its first n elements followed by the rest, as multisets too. */
  lemma SplitAt<T>(s: seq<T>, n: nat)
    requires n <= |s|
    ensures multiset(s) == multiset(s[..n]) + multiset(s[n..])
    ensures forall i :: 0 <= i < n ==> s[..n][i] in multiset(s)
  {
    assert s == s[..n] + s[n..];
  }

  /** `[...s].sort((a, b) => key(b) - key(a)).slice(0, n)`: n elements of largest key, largest first. */
  function TopBy<T(!new)>(s: seq<T>, key: T -> real, n: nat): (r: seq<T>)
    ensures |r| == if |s| < n then |s| else n
    ensures multiset(r) <= multiset(s)
    ensures forall i :: 0 <= i < |r| ==> r[i] in multiset(s)
    ensures forall i, j :: 0 <= i < j < |r| ==> key(r[i]) >= key(r[j])
  {
    var sorted := SortDesc(s, key);
    var m := if |sorted| <= n then |sorted| else n;
    SplitAt(sorted, m);
    sorted[..m]
  }

  /** What `TopBy` leaves out has a key no larger than any key it keeps. */
  lemma TopByDominates<T(!new)>(s: seq<T>, key: T -> real, n: nat, x: T)
    requires x in multiset(s) - multiset(TopBy(s, key, n))
    ensures forall i :: 0 <= i < |TopBy(s, key, n)| ==> key(TopBy(s, key, n)[i]) >= key(x)
  {
    var sorted := SortDesc(s, key);
    var m := if |sorted| <= n then |sorted| else n;
    SplitAt(sorted, m);
    assert TopBy(s, key, n) == sorted[..m];
    assert x in multiset(sorted[m..]);
    var k :| 0 <= k < |sorted[m..]| && sorted[m..][k] == x;
    assert sorted[m + k] == x;
  }

  /**
   * A comparator that throws on some elements (`b.createdAt.toDate()` on a
   * missing field) makes the sort throw as soon as it compares anything, that
   * is when there are two elements or more and one of them is such an element.
   */
  predicate ComparatorThrows<T>(s: seq<T>, throws: T -> bool) {
    |s| >= 2 && exists i :: 0 <= i < |s| && throws(s[i])
  }

  /** Plain lexicographic order on strings, by code point. */
  predicate StrLe(a: string, b: string) {
    if a == [] then true
    else if b == [] then false
    else if a[0] != b[0] then a[0] < b[0]
    else StrLe(a[1..], b[1..])
  }

  lemma {:induction false} StrLeTotal(a: string, b: string)
    ensures StrLe(a, b) || StrLe(b, a)
  {
    if a != [] && b != [] && a[0] == b[0] {
      StrLeTotal(a[1..], b[1..]);
    }
  }

  lemma {:induction false} StrLeTransitive(a: string, b: string, c: string)
    requires StrLe(a, b) && StrLe(b, c)
    ensures StrLe(a, c)
  {
    if a != [] && b != [] && c != [] && a[0] == b[0] && b[0] == c[0] {
      StrLeTransitive(a[1..], b[1..], c[1..]);
    }
  }

  lemma {:induction false} StrLeAntisymmetric(a: string, b: string)
    requires StrLe(a, b) && StrLe(b, a)
    ensures a == b
  {
    if a != [] && b != [] {
      StrLeAntisymmetric(a[1..], b[1..]);
      assert a == [a[0]] + a[1..] && b == [b[0]] + b[1..];
    }
  }
}
