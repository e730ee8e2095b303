/**
 * Sequence operations the source uses on arrays: Firestore's `arrayUnion` and
 * `arrayRemove`, `filter`, counting, `reduce` as a sum, `slice(0, n)` and
 * `[...new Set(xs)]`.
 */
module Seqs {

  predicate NoDup<T(==)>(s: seq<T>) {
    forall i, j :: 0 <= i < j < |s| ==> s[i] != s[j]
  }

  /** `arrayUnion(x)`: append x unless an equal element is already present. */
  function ArrayUnion<T(==,!new)>(s: seq<T>, x: T): (r: seq<T>)
    ensures x in r
    ensures forall y :: y in r <==> y in s || y == x
    ensures |s| <= |r| <= |s| + 1 && r[..|s|] == s
    ensures NoDup(s) ==> NoDup(r)
    // an element already present leaves the array as it is, repeats included
    ensures x in s ==> r == s
    ensures x !in s ==> r == s + [x]
  {
    if x in s then s else s + [x]
  }

  /** `arrayRemove(x)`: drop every element equal to x, keeping the others in order. */
  function ArrayRemove<T(==,!new)>(s: seq<T>, x: T): (r: seq<T>)
    ensures x !in r
    ensures forall y :: y in r <==> y in s && y != x
    ensures |r| <= |s|
    ensures x !in s ==> r == s
  {
    if s == [] then []
    else if s[0] == x then ArrayRemove(s[1..], x)
    else [s[0]] + ArrayRemove(s[1..], x)
  }

  /** `s.filter(p)`. */
  function Filter<T(!new)>(s: seq<T>, p: T -> bool): (r: seq<T>)
    ensures |r| <= |s|
    ensures forall y :: y in r <==> y in s && p(y)
  {
    if s == [] then []
    else if p(s[0]) then [s[0]] + Filter(s[1..], p)
    else Filter(s[1..], p)
  }

  /** Filtering distributes over concatenation, so it keeps the relative order of what it keeps. */
  lemma {:induction false} FilterAppend<T(!new)>(a: seq<T>, b: seq<T>, p: T -> bool)
    ensures Filter(a + b, p) == Filter(a, p) + Filter(b, p)
  {
    if a == [] {
      assert a + b == b;
    } else {
      assert (a + b)[1..] == a[1..] + b;
      FilterAppend(a[1..], b, p);
    }
  }

  /** A filter whose predicate holds everywhere keeps the whole sequence. */
  lemma {:induction false} FilterAll<T(!new)>(s: seq<T>, p: T -> bool)
    requires forall i :: 0 <= i < |s| ==> p(s[i])
    ensures Filter(s, p) == s
  {
    if s != [] {
      FilterAll(s[1..], p);
    }
  }

  /** `s.filter(p).length`. */
  function Count<T(!new)>(s: seq<T>, p: T -> bool): nat {
    |Filter(s, p)|
  }

  /** Appending one element adds one to the count when it satisfies p. */
  lemma CountAppend<T(!new)>(s: seq<T>, x: T, p: T -> bool)
    ensures Count(s + [x], p) == Count(s, p) + (if p(x) then 1 else 0)
  {
    FilterAppend(s, [x], p);
    assert [x][1..] == [];
  }

  /** Nothing satisfies p: the count is 0. */
  lemma {:induction false} CountZero<T(!new)>(s: seq<T>, p: T -> bool)
    requires forall i :: 0 <= i < |s| ==> !p(s[i])
    ensures Count(s, p) == 0
  {
    if s != [] {
      CountZero(s[1..], p);
    }
  }

  /** Counts of two predicates that never hold together add up to at most the length. */
  lemma {:induction false} CountDisjoint<T(!new)>(s: seq<T>, p: T -> bool, q: T -> bool)
    requires forall i :: 0 <= i < |s| ==> !(p(s[i]) && q(s[i]))
    ensures Count(s, p) + Count(s, q) <= |s|
  {
    if s != [] {
      CountDisjoint(s[1..], p, q);
    }
  }

  /** `s.reduce((acc, x) => acc + f(x), 0)`, summed from the left. */
  function Sum<T>(s: seq<T>, f: T -> real): real {
    if s == [] then 0.0 else Sum(s[..|s| - 1], f) + f(s[|s| - 1])
  }

  lemma {:induction false} SumAppend<T>(a: seq<T>, b: seq<T>, f: T -> real)
    ensures Sum(a + b, f) == Sum(a, f) + Sum(b, f)
  {
    if b != [] {
      assert (a + b)[..|a + b| - 1] == a + b[..|b| - 1];
      SumAppend(a, b[..|b| - 1], f);
    } else {
      assert a + b == a;
    }
  }

  /** A sum of non-negative terms is non-negative. */
  lemma {:induction false} SumNonNegative<T>(s: seq<T>, f: T -> real)
    requires forall i :: 0 <= i < |s| ==> f(s[i]) >= 0.0
    ensures Sum(s, f) >= 0.0
  {
    if s != [] {
      SumNonNegative(s[..|s| - 1], f);
    }
  }

  /** f where p holds, 0 elsewhere. */
  function Masked<T>(p: T -> bool, f: T -> real): T -> real {
    (x: T) => if p(x) then f(x) else 0.0
  }

  /** Summing f over the elements satisfying p is summing f masked by p over all of them. */
  lemma {:induction false} SumOverFilter<T(!new)>(s: seq<T>, p: T -> bool, f: T -> real)
    ensures Sum(Filter(s, p), f) == Sum(s, Masked(p, f))
  {
    if s != [] {
      var n := |s| - 1;
      assert s == s[..n] + [s[n]];
      FilterAppend(s[..n], [s[n]], p);
      SumOverFilter(s[..n], p, f);
      SumAppend(Filter(s[..n], p), Filter([s[n]], p), f);
      assert Filter([s[n]], p) == if p(s[n]) then [s[n]] else [];
      if p(s[n]) {
        assert Sum([s[n]], f) == f(s[n]) by {
          assert [s[n]][..0] == [];
        }
      }
    }
  }

  /** `findIndex`: the index of the first element satisfying p, or |s| when there is none. */
  function FindIndex<T>(s: seq<T>, p: T -> bool): (k: nat)
    ensures k <= |s|
    ensures k < |s| ==> p(s[k])
    ensures forall i :: 0 <= i < k ==> !p(s[i])
  {
    if s == [] then 0
    else if p(s[0]) then 0
    else 1 + FindIndex(s[1..], p)
  }

  /** `s.slice(0, n)`. */
  function Take<T>(s: seq<T>, n: nat): (r: seq<T>)
    ensures |r| <= n && |r| <= |s|
    ensures |s| >= n ==> |r| == n
    ensures forall i :: 0 <= i < |r| ==> r[i] == s[i]
  {
    if |s| <= n then s else s[..n]
  }

  /** `[...new Set(s)]`: each element once, at its first occurrence. */
  function Distinct<T(==)>(s: seq<T>): seq<T> {
    if s == [] then []
    else
      var d := Distinct(s[..|s| - 1]);
      if s[|s| - 1] in d then d else d + [s[|s| - 1]]
  }

  lemma {:induction false} DistinctProperties<T>(s: seq<T>)
    ensures NoDup(Distinct(s))
    ensures forall x :: x in Distinct(s) <==> x in s
  {
    if s != [] {
      DistinctProperties(s[..|s| - 1]);
      forall x ensures x in s <==> x in s[..|s| - 1] || x == s[|s| - 1] {
        assert s == s[..|s| - 1] + [s[|s| - 1]];
      }
    }
  }

  /** The index of the first occurrence of x in s. */
  function FirstIndex<T(==)>(s: seq<T>, x: T): (k: nat)
    requires x in s
    ensures k < |s| && s[k] == x
    ensures forall i :: 0 <= i < k ==> s[i] != x
  {
    if s[0] == x then 0 else 1 + FirstIndex(s[1..], x)
  }

  /** Elements of `Distinct(s)` appear in the order of their first occurrence in s. */
  lemma {:induction false} DistinctFirstOccurrenceOrder<T>(s: seq<T>, i: nat, j: nat)
    requires i < j < |Distinct(s)|
    ensures Distinct(s)[i] in s && Distinct(s)[j] in s
    ensures FirstIndex(s, Distinct(s)[i]) < FirstIndex(s, Distinct(s)[j])
  {
    assert s != [];
    DistinctProperties(s);
    var n := |s| - 1;
    var p := s[..n];
    DistinctProperties(p);
    var d := Distinct(p);
    assert s == p + [s[n]];
    assert Distinct(s)[i] in Distinct(s) && Distinct(s)[j] in Distinct(s);
    assert i < |d| && Distinct(s)[i] == d[i];
    DistinctMember(p, i);
    FirstIndexPrefix(p, s, Distinct(s)[i]);
    if j < |d| {
      DistinctFirstOccurrenceOrder(p, i, j);
      DistinctMember(p, j);
      FirstIndexPrefix(p, s, Distinct(s)[j]);
    } else {
      // Distinct(s)[j] is the last element s[n], seen for the first time at n
      assert Distinct(s)[j] == s[n] && s[n] !in d;
      assert s[n] !in p;
      FirstIndexLast(s, s[n]);
    }
  }

  lemma DistinctMember<T>(s: seq<T>, i: nat)
    requires i < |Distinct(s)|
    ensures Distinct(s)[i] in s
  {
    DistinctProperties(s);
    assert Distinct(s)[i] in Distinct(s);
  }

  /** Occurrences in a prefix keep their first index in the whole sequence. */
  lemma {:induction false} FirstIndexPrefix<T>(p: seq<T>, s: seq<T>, x: T)
    requires x in p && |p| <= |s| && s[..|p|] == p
    ensures x in s && FirstIndex(s, x) == FirstIndex(p, x) < |p|
  {
    assert p[FirstIndex(p, x)] == s[FirstIndex(p, x)];
    FirstIndexUnique(s, x, FirstIndex(p, x));
  }

  /** An element that occurs only at the end has its first index there. */
  lemma FirstIndexLast<T>(s: seq<T>, x: T)
    requires |s| > 0 && s[|s| - 1] == x && x !in s[..|s| - 1]
    ensures FirstIndex(s, x) == |s| - 1
  {
  }

  /** The first index is the one occurrence with no earlier occurrence. */
  lemma FirstIndexUnique<T>(s: seq<T>, x: T, k: nat)
    requires k < |s| && s[k] == x && forall i :: 0 <= i < k ==> s[i] != x
    ensures FirstIndex(s, x) == k
  {
  }
}
