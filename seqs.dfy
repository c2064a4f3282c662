/** Sequence operations that stand for the document store's queries:
    `find(filter)` is Filter, `sort({createdAt: -1})` over a store kept in
    creation order is Reverse, `limit(n)` is Take, `findById` is Find and
    `reduce((sum, b) => sum + b.price, 0)` is Sum. */
module Seqs {
  import opened Outcomes

  /** The elements of s that satisfy keep, in their original order. */
  function Filter<T>(s: seq<T>, keep: T -> bool): (r: seq<T>)
    ensures |r| <= |s|
    ensures forall i :: 0 <= i < |r| ==> r[i] in s && keep(r[i])
    ensures forall i :: 0 <= i < |s| && keep(s[i]) ==> s[i] in r
    decreases |s|
  {
    if s == [] then []
    else (if keep(s[0]) then [s[0]] else []) + Filter(s[1..], keep)
  }

  /** r can be obtained from s by deleting elements (order is kept). */
  ghost predicate IsSubsequence<T>(r: seq<T>, s: seq<T>)
    decreases |s|
  {
    && |r| <= |s|
    && (|r| == 0
        || (r[0] == s[0] && IsSubsequence(r[1..], s[1..]))
        || IsSubsequence(r, s[1..]))
  }

  lemma {:induction false} SubsequenceOfSelf<T>(s: seq<T>)
    ensures IsSubsequence(s, s)
    decreases |s|
  {
    if s != [] {
      SubsequenceOfSelf(s[1..]);
    }
  }

  /** Dropping a prefix leaves a subsequence. */
  lemma {:induction false} SuffixIsSubsequence<T>(s: seq<T>, k: nat)
    requires k <= |s|
    ensures IsSubsequence(s[k..], s)
    decreases k
  {
    if k == 0 {
      SubsequenceOfSelf(s);
      assert s[k..] == s;
    } else {
      SuffixIsSubsequence(s[1..], k - 1);
      assert s[1..][k - 1..] == s[k..];
    }
  }

  lemma {:induction false} FilterIsSubsequence<T>(s: seq<T>, keep: T -> bool)
    ensures IsSubsequence(Filter(s, keep), s)
    decreases |s|
  {
    if s != [] {
      FilterIsSubsequence(s[1..], keep);
      var r := Filter(s, keep);
      if keep(s[0]) {
        assert r[1..] == Filter(s[1..], keep);
      } else {
        assert r == Filter(s[1..], keep);
      }
    }
  }

  /** A filter keeps every copy of a kept element and no copy of the others. */
  lemma {:induction false} FilterMultiplicity<T>(s: seq<T>, keep: T -> bool)
    ensures forall x :: multiset(Filter(s, keep))[x] == if keep(x) then multiset(s)[x] else 0
    decreases |s|
  {
    if s != [] {
      FilterMultiplicity(s[1..], keep);
      assert s == [s[0]] + s[1..];
      assert multiset(s) == multiset{s[0]} + multiset(s[1..]);
    }
  }

  /** A filter that keeps every element returns the sequence unchanged. */
  lemma {:induction false} FilterKeepsAll<T>(s: seq<T>, keep: T -> bool)
    requires forall i :: 0 <= i < |s| ==> keep(s[i])
    ensures Filter(s, keep) == s
    decreases |s|
  {
    if s != [] {
      FilterKeepsAll(s[1..], keep);
      assert s == [s[0]] + s[1..];
    }
  }

  /** A filter that keeps no element returns the empty sequence. */
  lemma {:induction false} FilterKeepsNone<T>(s: seq<T>, keep: T -> bool)
    requires forall i :: 0 <= i < |s| ==> !keep(s[i])
    ensures Filter(s, keep) == []
    decreases |s|
  {
    if s != [] {
      FilterKeepsNone(s[1..], keep);
    }
  }

  /** Two filters that agree on every element give the same result. */
  lemma {:induction false} FilterCongruent<T>(s: seq<T>, k1: T -> bool, k2: T -> bool)
    requires forall i :: 0 <= i < |s| ==> k1(s[i]) == k2(s[i])
    ensures Filter(s, k1) == Filter(s, k2)
    decreases |s|
  {
    if s != [] {
      FilterCongruent(s[1..], k1, k2);
    }
  }

  /** s listed back to front. */
  function Reverse<T>(s: seq<T>): (r: seq<T>)
    ensures |r| == |s|
    ensures forall i :: 0 <= i < |s| ==> r[i] == s[|s| - 1 - i]
    ensures forall i :: 0 <= i < |s| ==> s[i] in r
    ensures forall i :: 0 <= i < |r| ==> r[i] in s
    decreases |s|
  {
    if s == [] then [] else Reverse(s[1..]) + [s[0]]
  }

  /** The first n elements of s, or all of s when it is shorter. */
  function Take<T>(s: seq<T>, n: nat): (r: seq<T>)
    ensures |r| == if |s| <= n then |s| else n
    ensures r == s[..|r|]
  {
    if |s| <= n then s else s[..n]
  }

  /** stamp never decreases along s: a store kept in creation order. */
  ghost predicate Ascending<T>(s: seq<T>, stamp: T -> int) {
    forall i, j :: 0 <= i < j < |s| ==> stamp(s[i]) <= stamp(s[j])
  }

  /** stamp never increases along s: newest first. */
  ghost predicate Descending<T>(s: seq<T>, stamp: T -> int) {
    forall i, j :: 0 <= i < j < |s| ==> stamp(s[i]) >= stamp(s[j])
  }

  lemma {:induction false} FilterKeepsAscending<T>(s: seq<T>, keep: T -> bool, stamp: T -> int)
    requires Ascending(s, stamp)
    ensures Ascending(Filter(s, keep), stamp)
    decreases |s|
  {
    if s != [] {
      FilterKeepsAscending(s[1..], keep, stamp);
      var rest := Filter(s[1..], keep);
      forall x | x in rest ensures stamp(s[0]) <= stamp(x) {
        var k :| 0 <= k < |s[1..]| && s[1..][k] == x;
        assert s[k + 1] == x;
      }
    }
  }

  /** Querying a creation-ordered store with a filter and sorting newest
      first lists exactly the matching elements, newest first, as the
      reverse of a subsequence of the store. */
  lemma NewestFirstQuery<T>(s: seq<T>, keep: T -> bool, stamp: T -> int)
    requires Ascending(s, stamp)
    ensures var r := Reverse(Filter(s, keep));
            && Descending(r, stamp)
            && IsSubsequence(Reverse(r), s)
            && (forall x :: x in r <==> x in s && keep(x))
  {
    NewestFirstOrder(s, keep, stamp);
    FilterIsSubsequence(s, keep);
    var f := Filter(s, keep);
    assert Reverse(Reverse(f)) == f;
  }

  /** The ordering and membership half of the query above. */
  lemma NewestFirstOrder<T>(s: seq<T>, keep: T -> bool, stamp: T -> int)
    requires Ascending(s, stamp)
    ensures var r := Reverse(Filter(s, keep));
            && Descending(r, stamp)
            && (forall x :: x in r <==> x in s && keep(x))
  {
    FilterKeepsAscending(s, keep, stamp);
  }

  /** Limiting a newest-first list keeps it newest first, and everything
      cut off is no newer than anything kept. */
  lemma TakeOfDescending<T>(s: seq<T>, n: nat, stamp: T -> int)
    requires Descending(s, stamp)
    ensures Descending(Take(s, n), stamp)
    ensures forall k, i :: |Take(s, n)| <= k < |s| && 0 <= i < |Take(s, n)| ==> stamp(s[k]) <= stamp(Take(s, n)[i])
  {
    var t := Take(s, n);
    assert forall i :: 0 <= i < |t| ==> t[i] == s[i];
  }

  /** The first n of s listed back to front are the last ones of s, in
      their original order. */
  lemma NewestOfReverse<T>(s: seq<T>, n: nat)
    ensures Reverse(Take(Reverse(s), n)) == s[|s| - |Take(Reverse(s), n)|..]
  {
    var rev := Reverse(s);
    var t := Take(rev, n);
    var k := |s| - |t|;
    var tail := s[k..];
    var back := Reverse(t);
    assert |back| == |tail|;
    forall i | 0 <= i < |t| ensures back[i] == tail[i] {
      var j := |t| - 1 - i;
      calc {
        back[i];
        t[j];
        rev[j];
        s[|s| - 1 - j];
        tail[i];
      }
    }
    assert back == tail;
  }

  /** ... and so they are an order-preserving selection of s. */
  lemma NewestIsSubsequence<T>(s: seq<T>, n: nat)
    ensures IsSubsequence(Reverse(Take(Reverse(s), n)), s)
  {
    NewestOfReverse(s, n);
    var k := |s| - |Take(Reverse(s), n)|;
    SuffixIsSubsequence(s, k);
    assert Reverse(Take(Reverse(s), n)) == s[k..];
  }

  /** Index of the first element whose key is k (a lookup by id). */
  function Find<T>(s: seq<T>, key: T -> nat, k: nat): (r: Option<nat>)
    ensures r.Some? ==> r.value < |s| && key(s[r.value]) == k
    ensures r.Some? ==> forall i :: 0 <= i < r.value ==> key(s[i]) != k
    ensures r.None? <==> forall i :: 0 <= i < |s| ==> key(s[i]) != k
    decreases |s|
  {
    if s == [] then None
    else if key(s[0]) == k then Some(0)
    else match Find(s[1..], key, k)
      case None => None
      case Some(j) => Some(j + 1)
  }

  /** Sum of value over s, from the front (Array.prototype.reduce). */
  function Sum<T>(s: seq<T>, value: T -> int): int
    decreases |s|
  {
    if s == [] then 0 else value(s[0]) + Sum(s[1..], value)
  }

  /** Summing over a stricter filter gives no more when no value is negative. */
  lemma {:induction false} SumFilterMonotone<T>(s: seq<T>, value: T -> int, k1: T -> bool, k2: T -> bool)
    requires forall i :: 0 <= i < |s| ==> k1(s[i]) ==> k2(s[i])
    requires forall i :: 0 <= i < |s| ==> value(s[i]) >= 0
    ensures Sum(Filter(s, k1), value) <= Sum(Filter(s, k2), value)
    decreases |s|
  {
    if s != [] {
      SumFilterMonotone(s[1..], value, k1, k2);
      var f1, f2 := Filter(s[1..], k1), Filter(s[1..], k2);
      if k1(s[0]) {
        SumAppendFront(s[0], f1, value);
        SumAppendFront(s[0], f2, value);
      } else if k2(s[0]) {
        SumAppendFront(s[0], f2, value);
        assert Filter(s, k1) == f1;
      } else {
        assert Filter(s, k1) == f1 && Filter(s, k2) == f2;
      }
    }
  }

  lemma SumAppendFront<T>(x: T, s: seq<T>, value: T -> int)
    ensures Sum([x] + s, value) == value(x) + Sum(s, value)
  {
    assert ([x] + s)[1..] == s;
  }

  /** Appending an element adds its value to the sum. */
  lemma {:induction false} SumAppend<T>(s: seq<T>, x: T, value: T -> int)
    ensures Sum(s + [x], value) == Sum(s, value) + value(x)
    decreases |s|
  {
    if s != [] {
      assert (s + [x])[1..] == s[1..] + [x];
      SumAppend(s[1..], x, value);
    }
  }

  /** Filtering distributes over appending one element. */
  lemma {:induction false} FilterAppend<T>(s: seq<T>, x: T, keep: T -> bool)
    ensures Filter(s + [x], keep) == Filter(s, keep) + (if keep(x) then [x] else [])
    decreases |s|
  {
    if s != [] {
      assert (s + [x])[1..] == s[1..] + [x];
      FilterAppend(s[1..], x, keep);
    }
  }

  /** Appending an element no older than any present keeps creation order. */
  lemma AscendingAppend<T>(s: seq<T>, x: T, stamp: T -> int)
    requires Ascending(s, stamp)
    requires forall i :: 0 <= i < |s| ==> stamp(s[i]) <= stamp(x)
    ensures Ascending(s + [x], stamp)
  {
  }

  /** Removing one element keeps creation order. */
  lemma AscendingRemove<T>(s: seq<T>, k: nat, stamp: T -> int)
    requires Ascending(s, stamp) && k < |s|
    ensures Ascending(s[..k] + s[k + 1..], stamp)
  {
    var r := s[..k] + s[k + 1..];
    assert forall i :: 0 <= i < |r| ==> r[i] == s[if i < k then i else i + 1];
  }
}
