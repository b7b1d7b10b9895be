/** Sequence helpers shared by the queries and the message handling: filters, de-duplication, ordering by a timestamp key. */
module Seqs {
  import opened Wrappers

  /** `Array.prototype.filter`: the elements satisfying `p`, in input order. */
  function Filter<T(!new)>(xs: seq<T>, p: T -> bool): (r: seq<T>)
    ensures |r| <= |xs|
    ensures forall x :: x in r <==> x in xs && p(x)
    decreases |xs|
  {
    if |xs| == 0 then []
    else (if p(xs[0]) then [xs[0]] else []) + Filter(xs[1..], p)
  }

  lemma {:induction false} FilterAppend<T(!new)>(a: seq<T>, b: seq<T>, p: T -> bool)
    ensures Filter(a + b, p) == Filter(a, p) + Filter(b, p)
    decreases |a|
  {
    if |a| > 0 {
      assert (a + b)[0] == a[0];
      assert (a + b)[1..] == a[1..] + b;
      FilterAppend(a[1..], b, p);
    } else {
      assert a + b == b;
    }
  }

  lemma FilterSnoc<T(!new)>(xs: seq<T>, x: T, p: T -> bool)
    ensures Filter(xs + [x], p) == Filter(xs, p) + if p(x) then [x] else []
  {
    FilterAppend(xs, [x], p);
    assert Filter([x], p) == if p(x) then [x] else [];
  }

  /** Filtering a non-empty sequence: the filtered prefix, then the last element if it passes. */
  lemma {:induction false} FilterLast<T(!new)>(xs: seq<T>, p: T -> bool)
    requires |xs| > 0
    ensures Filter(xs, p) == Filter(xs[..|xs| - 1], p) + if p(xs[|xs| - 1]) then [xs[|xs| - 1]] else []
    decreases |xs|
  {
    var n := |xs| - 1;
    if n > 0 {
      FilterLast(xs[1..], p);
      assert xs[1..][..n - 1] == xs[..n][1..];
      assert xs[..n][0] == xs[0];
    } else {
      assert xs[..n] == [];
    }
  }

  /** The head of a filtered sequence is the first element satisfying `p`. */
  lemma {:induction false} FilterHead<T(!new)>(xs: seq<T>, p: T -> bool)
    requires |Filter(xs, p)| > 0
    ensures exists i :: 0 <= i < |xs| && xs[i] == Filter(xs, p)[0] && forall j :: 0 <= j < i ==> !p(xs[j])
    decreases |xs|
  {
    if p(xs[0]) {
      assert xs[0] == Filter(xs, p)[0];
    } else {
      assert Filter(xs, p) == Filter(xs[1..], p);
      FilterHead(xs[1..], p);
      var i :| 0 <= i < |xs[1..]| && xs[1..][i] == Filter(xs[1..], p)[0] && forall j :: 0 <= j < i ==> !p(xs[1..][j]);
      forall j | 0 <= j < i + 1 ensures !p(xs[j]) {
        if j > 0 {
          assert xs[j] == xs[1..][j - 1];
        }
      }
      assert xs[i + 1] == Filter(xs, p)[0];
    }
  }

  /** When every element satisfies `p`, filtering keeps them all. */
  lemma {:induction false} FilterAll<T(!new)>(xs: seq<T>, p: T -> bool)
    requires forall x :: x in xs ==> p(x)
    ensures Filter(xs, p) == xs
    decreases |xs|
  {
    if |xs| > 0 {
      FilterAll(xs[1..], p);
      assert xs == [xs[0]] + xs[1..];
    }
  }

  /** `xs.find(p)`, or a `LIMIT 1` lookup: the first element satisfying `p`. */
  function Find<T(!new)>(xs: seq<T>, p: T -> bool): (r: Option<T>)
    ensures r.None? <==> forall x :: x in xs ==> !p(x)
    ensures r.Some? ==> r.value in xs && p(r.value)
    decreases |xs|
  {
    if |xs| == 0 then None
    else if p(xs[0]) then Some(xs[0])
    else Find(xs[1..], p)
  }

  /** Appending never changes an element already found; otherwise the appended part decides. */
  lemma {:induction false} FindAppend<T(!new)>(a: seq<T>, b: seq<T>, p: T -> bool)
    ensures Find(a + b, p) == if Find(a, p).Some? then Find(a, p) else Find(b, p)
    decreases |a|
  {
    if |a| > 0 {
      assert (a + b)[0] == a[0];
      assert (a + b)[1..] == a[1..] + b;
      FindAppend(a[1..], b, p);
    } else {
      assert a + b == b;
    }
  }

  /** Deduplication through a set: every distinct element once, in order of first occurrence. */
  function Dedup<T(==,!new)>(xs: seq<T>): (r: seq<T>)
    ensures forall x :: x in r <==> x in xs
    ensures forall i, j :: 0 <= i < j < |r| ==> r[i] != r[j]
    decreases |xs|
  {
    if |xs| == 0 then []
    else
      var prev := Dedup(xs[..|xs| - 1]);
      assert xs == xs[..|xs| - 1] + [xs[|xs| - 1]];
      if xs[|xs| - 1] in prev then prev else prev + [xs[|xs| - 1]]
  }

  /**
   * The element with the greatest key, the earliest one among equal keys
   * (`ORDER BY key DESC LIMIT 1`); None for an empty sequence.
   */
  function Latest<T(!new)>(xs: seq<T>, key: T -> int): (r: Option<T>)
    ensures r.None? <==> |xs| == 0
    ensures r.Some? ==> r.value in xs && forall x :: x in xs ==> key(x) <= key(r.value)
    decreases |xs|
  {
    if |xs| == 0 then None
    else
      var prev := Latest(xs[..|xs| - 1], key);
      assert xs == xs[..|xs| - 1] + [xs[|xs| - 1]];
      if prev.None? || key(xs[|xs| - 1]) > key(prev.value) then Some(xs[|xs| - 1]) else prev
  }

  ghost predicate SortedBy<T>(s: seq<T>, key: T -> int)
  {
    forall i, j :: 0 <= i < j < |s| ==> key(s[i]) <= key(s[j])
  }

  /** Places `x` before the first element whose key is not smaller, so that ties keep input order. */
  function InsertBy<T>(x: T, s: seq<T>, key: T -> int): (r: seq<T>)
    requires SortedBy(s, key)
    ensures SortedBy(r, key)
    ensures multiset(r) == multiset(s) + multiset{x}
    ensures |s| > 0 && key(x) <= key(s[0]) ==> r == [x] + s
    decreases |s|
  {
    if |s| == 0 || key(x) <= key(s[0]) then [x] + s
    else
      var tail := InsertBy(x, s[1..], key);
      assert s == [s[0]] + s[1..];
      HeadBoundsInsert(x, s, tail, key);
      [s[0]] + tail
  }

  lemma HeadBoundsInsert<T>(x: T, s: seq<T>, tail: seq<T>, key: T -> int)
    requires |s| > 0 && SortedBy(s, key) && key(s[0]) < key(x)
    requires SortedBy(tail, key) && multiset(tail) == multiset(s[1..]) + multiset{x}
    ensures SortedBy([s[0]] + tail, key)
  {
    forall j | 0 <= j < |tail| ensures key(s[0]) <= key(tail[j]) {
      assert tail[j] in multiset(tail);
      if tail[j] != x {
        assert tail[j] in multiset(s[1..]);
        var k :| 0 <= k < |s[1..]| && s[1..][k] == tail[j];
        assert s[k + 1] == tail[j];
      }
    }
  }

  /** `Array.prototype.sort` with a comparator subtracting the keys: a stable ascending sort. */
  function SortBy<T>(xs: seq<T>, key: T -> int): (r: seq<T>)
    ensures SortedBy(r, key)
    ensures multiset(r) == multiset(xs)
    ensures |r| == |xs|
    decreases |xs|
  {
    if |xs| == 0 then []
    else
      assert xs == [xs[0]] + xs[1..];
      InsertBy(xs[0], SortBy(xs[1..], key), key)
  }

  /** The first element of `xs` whose key is minimal. */
  function Earliest<T(!new)>(xs: seq<T>, key: T -> int): (r: T)
    requires |xs| > 0
    ensures r in xs && forall x :: x in xs ==> key(r) <= key(x)
    decreases |xs|
  {
    if |xs| == 1 then xs[0]
    else
      var rest := Earliest(xs[1..], key);
      assert forall x :: x in xs ==> x == xs[0] || x in xs[1..];
      if key(xs[0]) <= key(rest) then xs[0] else rest
  }

  /** Taking index 0 of the sorted sequence picks the earliest element, the first one among ties. */
  lemma {:induction false} SortByFirstIsEarliest<T(!new)>(xs: seq<T>, key: T -> int)
    requires |xs| > 0
    ensures SortBy(xs, key)[0] == Earliest(xs, key)
    decreases |xs|
  {
    if |xs| > 1 {
      SortByFirstIsEarliest(xs[1..], key);
      var sorted := SortBy(xs[1..], key);
      var rest := Earliest(xs[1..], key);
      assert sorted[0] == rest;
      if key(xs[0]) <= key(rest) {
        assert InsertBy(xs[0], sorted, key) == [xs[0]] + sorted;
      } else {
        assert key(xs[0]) > key(sorted[0]);
        assert InsertBy(xs[0], sorted, key)[0] == sorted[0];
      }
    }
  }
}
