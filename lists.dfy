/** The array operations the pages use: `filter`, `slice(0, n)` and a
    stable `sort` on an integer key (the `updatedAt.seconds` comparators and
    the store's `orderBy`). */
module Lists {

  /** `s.filter(keep)`: the elements that pass, in their original order. */
  function Filter<T(==)>(s: seq<T>, keep: T -> bool): (r: seq<T>)
    ensures |r| <= |s|
    ensures forall k :: 0 <= k < |r| ==> r[k] in s && keep(r[k])
    ensures forall k :: 0 <= k < |s| && keep(s[k]) ==> s[k] in r
    ensures multiset(r) <= multiset(s)
    decreases |s|
  {
    if s == [] then []
    else
      var rest := Filter(s[1..], keep);
      assert s == [s[0]] + s[1..];
      if keep(s[0]) then [s[0]] + rest else rest
  }

  /** `r` is `s` with some elements left out and the rest in order. */
  predicate IsSubsequence<T(==)>(r: seq<T>, s: seq<T>)
    decreases |s|
  {
    r == [] || (s != [] && ((r[0] == s[0] && IsSubsequence(r[1..], s[1..])) || IsSubsequence(r, s[1..])))
  }

  /** A filter keeps the surviving elements in their original order. */
  lemma {:induction false} FilterIsSubsequence<T>(s: seq<T>, keep: T -> bool)
    ensures IsSubsequence(Filter(s, keep), s)
    decreases |s|
  {
    if s != [] {
      FilterIsSubsequence(s[1..], keep);
      var r := Filter(s, keep);
      if keep(s[0]) {
        assert r[0] == s[0] && r[1..] == Filter(s[1..], keep);
      }
    }
  }

  /** An element is kept exactly when it is in the list and passes. */
  lemma FilterMember<T>(s: seq<T>, keep: T -> bool, x: T)
    ensures x in Filter(s, keep) <==> x in s && keep(x)
  {
    var r := Filter(s, keep);
    if x in r {
      var k :| 0 <= k < |r| && r[k] == x;
    }
    if x in s && keep(x) {
      var k :| 0 <= k < |s| && s[k] == x;
    }
  }

  /** Nothing is dropped exactly when every element passes. */
  lemma {:induction false} FilterLength<T>(s: seq<T>, keep: T -> bool)
    ensures |Filter(s, keep)| == |s| <==> forall k :: 0 <= k < |s| ==> keep(s[k])
    decreases |s|
  {
    if s != [] {
      FilterLength(s[1..], keep);
      assert |Filter(s[1..], keep)| <= |s[1..]|;
      if forall k :: 0 <= k < |s| ==> keep(s[k]) {
        assert forall k :: 0 <= k < |s[1..]| ==> keep(s[1..][k]) by {
          forall k | 0 <= k < |s[1..]| ensures keep(s[1..][k]) {
            assert s[1..][k] == s[k + 1];
          }
        }
      } else if keep(s[0]) {
        var k :| 0 <= k < |s| && !keep(s[k]);
        assert s[1..][k - 1] == s[k];
      }
    }
  }

  /** The filter keeps every passing element as often as the list holds
      it, and no other. */
  lemma {:induction false} FilterMultiplicity<T>(s: seq<T>, keep: T -> bool)
    ensures forall x :: multiset(Filter(s, keep))[x] == if keep(x) then multiset(s)[x] else 0
    decreases |s|
  {
    if s != [] {
      FilterMultiplicity(s[1..], keep);
      assert s == [s[0]] + s[1..];
      assert multiset(s) == multiset{s[0]} + multiset(s[1..]);
      var rest := Filter(s[1..], keep);
      if keep(s[0]) {
        assert multiset(Filter(s, keep)) == multiset{s[0]} + multiset(rest);
      } else {
        assert Filter(s, keep) == rest;
      }
    }
  }

  /** Filtering a list with one more element at the end filters the
      list and then that element. */
  lemma {:induction false} FilterSnoc<T>(s: seq<T>, x: T, keep: T -> bool)
    ensures Filter(s + [x], keep) == Filter(s, keep) + (if keep(x) then [x] else [])
    decreases |s|
  {
    if s == [] {
      assert [] + [x] == [x];
    } else {
      assert (s + [x])[1..] == s[1..] + [x];
      FilterSnoc(s[1..], x, keep);
    }
  }

  /** The positions of `s` whose element passes. */
  function KeptPositions<T>(s: seq<T>, keep: T -> bool): set<nat> {
    set k: nat | k < |s| && keep(s[k])
  }

  /** The passing positions of a list with one more element at the end. */
  lemma KeptPositionsSnoc<T>(init: seq<T>, x: T, keep: T -> bool)
    ensures KeptPositions(init + [x], keep)
            == KeptPositions(init, keep) + (if keep(x) then {|init|} else {})
  {
    var s := init + [x];
    forall k: nat
      ensures k in KeptPositions(s, keep) <==> k in KeptPositions(init, keep) || (keep(x) && k == |init|)
    {
      if k < |init| {
        assert s[k] == init[k];
      }
    }
  }

  /** The filter keeps one element per passing position. */
  lemma {:induction false} FilterCountsPositions<T>(s: seq<T>, keep: T -> bool)
    ensures |Filter(s, keep)| == |KeptPositions(s, keep)|
    decreases |s|
  {
    if s != [] {
      var init, x := s[..|s| - 1], s[|s| - 1];
      assert s == init + [x];
      FilterSnoc(init, x, keep);
      FilterCountsPositions(init, keep);
      KeptPositionsSnoc(init, x, keep);
      assert |init| !in KeptPositions(init, keep);
    }
  }

  /** Nothing is kept exactly when no element passes. */
  lemma FilterEmpty<T>(s: seq<T>, keep: T -> bool)
    ensures Filter(s, keep) == [] <==> forall k :: 0 <= k < |s| ==> !keep(s[k])
  {
    var r := Filter(s, keep);
    if r != [] {
      assert r[0] in s && keep(r[0]);
      var k :| 0 <= k < |s| && s[k] == r[0];
    }
  }

  /** Lists with the same elements, counted, have the same length and the
      same members. */
  lemma SameMembers<T>(a: seq<T>, b: seq<T>)
    requires multiset(a) == multiset(b)
    ensures |a| == |b|
    ensures forall x :: x in a <==> x in b
  {
    assert |a| == |multiset(a)| == |multiset(b)| == |b|;
    forall x ensures x in a <==> x in b {
      assert x in a <==> x in multiset(a);
      assert x in b <==> x in multiset(b);
    }
  }

  /** Two filters in a row are one filter on the conjunction. */
  lemma {:induction false} FilterTwice<T>(s: seq<T>, p: T -> bool, q: T -> bool)
    ensures Filter(Filter(s, p), q) == Filter(s, x => p(x) && q(x))
    decreases |s|
  {
    if s != [] {
      FilterTwice(s[1..], p, q);
      if p(s[0]) {
        var once := Filter(s, p);
        assert once[0] == s[0] && once[1..] == Filter(s[1..], p);
      }
    }
  }

  /** Filters that agree on every element give the same result. */
  lemma {:induction false} FilterAgree<T>(s: seq<T>, p: T -> bool, q: T -> bool)
    requires forall k :: 0 <= k < |s| ==> p(s[k]) == q(s[k])
    ensures Filter(s, p) == Filter(s, q)
    decreases |s|
  {
    if s != [] {
      FilterAgree(s[1..], p, q);
    }
  }

  /** A filter on `p` and then on `q` is one filter on a condition that
      holds exactly when both do. */
  lemma FilterThen<T>(s: seq<T>, p: T -> bool, q: T -> bool, pq: T -> bool)
    requires forall k :: 0 <= k < |s| ==> pq(s[k]) == (p(s[k]) && q(s[k]))
    ensures Filter(Filter(s, p), q) == Filter(s, pq)
  {
    FilterTwice(s, p, q);
    FilterAgree(s, x => p(x) && q(x), pq);
  }

  /** A filter that every element passes changes nothing. */
  lemma {:induction false} FilterKeepsAll<T>(s: seq<T>, keep: T -> bool)
    requires forall k :: 0 <= k < |s| ==> keep(s[k])
    ensures Filter(s, keep) == s
    decreases |s|
  {
    if s != [] {
      FilterKeepsAll(s[1..], keep);
      assert [s[0]] + s[1..] == s;
    }
  }

  /** `s.slice(0, n)`. */
  function Take<T>(s: seq<T>, n: nat): (r: seq<T>)
    ensures |r| <= n && |r| <= |s|
    ensures |r| == n || r == s
    ensures r == s[..|r|]
  {
    if n < |s| then s[..n] else s
  }

  /** `a` may precede `b`: descending or ascending by `key`. */
  predicate InOrder<T>(key: T -> int, descending: bool, a: T, b: T) {
    if descending then key(a) >= key(b) else key(a) <= key(b)
  }

  predicate Sorted<T>(s: seq<T>, key: T -> int, descending: bool) {
    forall i, j :: 0 <= i < j < |s| ==> InOrder(key, descending, s[i], s[j])
  }

  /** The first elements of a sorted list are sorted. */
  lemma TakeSorted<T>(s: seq<T>, n: nat, key: T -> int, descending: bool)
    requires Sorted(s, key, descending)
    ensures Sorted(Take(s, n), key, descending)
  {
    var r := Take(s, n);
    forall i, j | 0 <= i < j < |r| ensures InOrder(key, descending, r[i], r[j]) {
      assert r[i] == s[i] && r[j] == s[j];
    }
  }

  /** Inserts `x` after every element that may precede it, so that among
      equal keys the earlier-inserted element stays first. */
  function Insert<T>(x: T, s: seq<T>, key: T -> int, descending: bool): (r: seq<T>)
    ensures multiset(r) == multiset(s) + multiset{x}
    ensures |r| == |s| + 1
    decreases |s|
  {
    if s == [] then [x]
    else if InOrder(key, descending, s[0], x) then
      assert s == [s[0]] + s[1..];
      [s[0]] + Insert(x, s[1..], key, descending)
    else
      [x] + s
  }

  /** An element that may precede `x` and all of `s` may precede all of the
      insertion. */
  lemma {:induction false} InsertBounded<T>(a: T, x: T, s: seq<T>, key: T -> int, descending: bool)
    requires InOrder(key, descending, a, x)
    requires forall k :: 0 <= k < |s| ==> InOrder(key, descending, a, s[k])
    ensures forall k :: 0 <= k < |s| + 1 ==> InOrder(key, descending, a, Insert(x, s, key, descending)[k])
    decreases |s|
  {
    if s != [] && InOrder(key, descending, s[0], x) {
      InsertBounded(a, x, s[1..], key, descending);
    }
  }

  lemma {:induction false} InsertSorted<T>(x: T, s: seq<T>, key: T -> int, descending: bool)
    requires Sorted(s, key, descending)
    ensures Sorted(Insert(x, s, key, descending), key, descending)
    decreases |s|
  {
    if s != [] {
      if InOrder(key, descending, s[0], x) {
        InsertSorted(x, s[1..], key, descending);
        InsertBounded(s[0], x, s[1..], key, descending);
      }
    }
  }

  /** `s.sort((a, b) => ...)` with a comparator on `key`: a stable sort, so
      elements with equal keys keep their relative order. */
  function SortBy<T>(s: seq<T>, key: T -> int, descending: bool): (r: seq<T>)
    ensures Sorted(r, key, descending)
    ensures multiset(r) == multiset(s)
    ensures |r| == |s|
    decreases |s|
  {
    if s == [] then []
    else
      var init := s[..|s| - 1];
      assert s == init + [s[|s| - 1]];
      var sorted := SortBy(init, key, descending);
      InsertSorted(s[|s| - 1], sorted, key, descending);
      Insert(s[|s| - 1], sorted, key, descending)
  }
}
