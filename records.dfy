/**
 * A JavaScript object used as a dictionary (`Record<string, V>`): its entries in
 * insertion order, which is the order `Object.entries` enumerates keys that are not
 * array indices (identifiers such as DIDs, currency codes and transaction ids).
 */
module Records {
  import opened Wrappers
  import Seqs
  import Text

  type Record<V> = seq<(string, V)>

  function Keys<V>(r: Record<V>): (ks: seq<string>)
    ensures |ks| == |r|
    ensures forall i :: 0 <= i < |r| ==> ks[i] == r[i].0
  {
    seq(|r|, i requires 0 <= i < |r| => r[i].0)
  }

  ghost predicate DistinctKeys<V>(r: Record<V>)
  {
    forall i, j :: 0 <= i < j < |r| ==> r[i].0 != r[j].0
  }

  /** `r[k]`, or None when the key is absent. */
  function Get<V>(r: Record<V>, k: string): (v: Option<V>)
    ensures v.None? <==> k !in Keys(r)
    decreases |r|
  {
    if |r| == 0 then None
    else if r[0].0 == k then Some(r[0].1)
    else
      assert Keys(r) == [r[0].0] + Keys(r[1..]);
      Get(r[1..], k)
  }

  /** With distinct keys, every entry is what a lookup of its key finds. */
  lemma {:induction false} GetDistinct<V>(r: Record<V>, i: nat)
    requires DistinctKeys(r) && i < |r|
    ensures Get(r, r[i].0) == Some(r[i].1)
    decreases i
  {
    if i > 0 {
      assert r[0].0 != r[i].0;
      assert DistinctKeys(r[1..]) by {
        forall a, b | 0 <= a < b < |r[1..]| ensures r[1..][a].0 != r[1..][b].0 {
          assert r[1..][a] == r[a + 1] && r[1..][b] == r[b + 1];
        }
      }
      GetDistinct(r[1..], i - 1);
    }
  }

  /** `r[k] = v`: replaces the value of a present key in place, appends an absent one. */
  function Put<V>(r: Record<V>, k: string, v: V): (r': Record<V>)
    ensures Get(r', k) == Some(v)
    ensures forall k' :: k' != k ==> Get(r', k') == Get(r, k')
    ensures Keys(r') == if k in Keys(r) then Keys(r) else Keys(r) + [k]
    decreases |r|
  {
    if |r| == 0 then
      PutEmpty(r, k, v);
      [(k, v)]
    else if r[0].0 == k then
      PutHead(r, k, v);
      [(k, v)] + r[1..]
    else
      var tail := Put(r[1..], k, v);
      ConsSplit(r);
      PutCons(r[0], r[1..], tail, k, v);
      [r[0]] + tail
  }

  lemma ConsSplit<V>(r: Record<V>)
    requires |r| > 0
    ensures [r[0]] + r[1..] == r
  {
  }

  lemma PutCons<V>(head: (string, V), rest: Record<V>, tail: Record<V>, k: string, v: V)
    requires head.0 != k
    requires Get(tail, k) == Some(v)
    requires forall k' :: k' != k ==> Get(tail, k') == Get(rest, k')
    requires Keys(tail) == if k in Keys(rest) then Keys(rest) else Keys(rest) + [k]
    ensures Get([head] + tail, k) == Some(v)
    ensures forall k' :: k' != k ==> Get([head] + tail, k') == Get([head] + rest, k')
    ensures Keys([head] + tail) == if k in Keys([head] + rest) then Keys([head] + rest) else Keys([head] + rest) + [k]
  {
    GetCons(head, tail, k);
    forall k' | k' != k ensures Get([head] + tail, k') == Get([head] + rest, k') {
      GetCons(head, tail, k');
      GetCons(head, rest, k');
    }
    KeysCons(head, rest);
    KeysCons(head, tail);
  }

  lemma PutEmpty<V>(r: Record<V>, k: string, v: V)
    requires |r| == 0
    ensures Get([(k, v)], k) == Some(v)
    ensures forall k' :: k' != k ==> Get([(k, v)], k') == Get(r, k')
    ensures Keys([(k, v)]) == Keys(r) + [k] && k !in Keys(r)
  {
    assert [(k, v)][1..] == r;
  }

  lemma PutHead<V>(r: Record<V>, k: string, v: V)
    requires |r| > 0 && r[0].0 == k
    ensures Get([(k, v)] + r[1..], k) == Some(v)
    ensures forall k' :: k' != k ==> Get([(k, v)] + r[1..], k') == Get(r, k')
    ensures Keys([(k, v)] + r[1..]) == Keys(r) && k in Keys(r)
  {
    assert r == [r[0]] + r[1..];
    GetCons((k, v), r[1..], k);
    forall k' | k' != k ensures Get([(k, v)] + r[1..], k') == Get(r, k') {
      GetCons((k, v), r[1..], k');
      GetCons(r[0], r[1..], k');
    }
    KeysCons((k, v), r[1..]);
    KeysCons(r[0], r[1..]);
  }

  lemma GetCons<V>(head: (string, V), rest: Record<V>, k: string)
    ensures Get([head] + rest, k) == if head.0 == k then Some(head.1) else Get(rest, k)
  {
    assert ([head] + rest)[1..] == rest;
  }

  lemma KeysCons<V>(head: (string, V), rest: Record<V>)
    ensures Keys([head] + rest) == [head.0] + Keys(rest)
  {
  }

  /** Element after element, the value of each element that has an owner key is put under that key. */
  function PutAll<X, V>(acc: Record<V>, xs: seq<X>, owner: X -> Option<string>, value: X -> V): Record<V>
    decreases |xs|
  {
    if |xs| == 0 then acc
    else
      var n := |xs| - 1;
      var prev := PutAll(acc, xs[..n], owner, value);
      match owner(xs[n])
      case None => prev
      case Some(k) => Put(prev, k, value(xs[n]))
  }

  /** The elements whose owner key is `k`. */
  function OwnerIs<X>(owner: X -> Option<string>, k: string): X -> bool
  {
    x => owner(x) == Some(k)
  }

  /** The last element whose owner key is `k`. */
  function LastOwned<X>(xs: seq<X>, owner: X -> Option<string>, k: string): Option<X>
    decreases |xs|
  {
    if |xs| == 0 then None
    else if owner(xs[|xs| - 1]) == Some(k) then Some(xs[|xs| - 1])
    else LastOwned(xs[..|xs| - 1], owner, k)
  }

  /** The entry under `k` is the value of the last element owned by `k`, or what it was before. */
  lemma {:induction false} PutAllEntry<X, V>(acc: Record<V>, xs: seq<X>, owner: X -> Option<string>, value: X -> V, k: string)
    ensures Get(PutAll(acc, xs, owner, value), k)
            == match LastOwned(xs, owner, k) case None => Get(acc, k) case Some(x) => Some(value(x))
    decreases |xs|
  {
    if |xs| > 0 {
      var n := |xs| - 1;
      assert xs == xs[..n] + [xs[n]];
      PutAllEntry(acc, xs[..n], owner, value, k);
      PutAllSnoc(acc, xs[..n], xs[n], owner, value, k);
    }
  }

  /** The last owned element is the last of the owned elements filtered out in order. */
  lemma {:induction false} LastOwnedFiltered<X(!new)>(xs: seq<X>, owner: X -> Option<string>, k: string)
    ensures var mine := Seqs.Filter(xs, OwnerIs(owner, k));
            LastOwned(xs, owner, k) == if |mine| == 0 then None else Some(mine[|mine| - 1])
    decreases |xs|
  {
    if |xs| > 0 {
      var n := |xs| - 1;
      assert xs == xs[..n] + [xs[n]];
      LastOwnedFiltered(xs[..n], owner, k);
      Seqs.FilterSnoc(xs[..n], xs[n], OwnerIs(owner, k));
    } else {
      assert Seqs.Filter(xs, OwnerIs(owner, k)) == [];
    }
  }

  /** The entry under `k` is the value of the last of the elements `k` owns, or what it was before. */
  lemma {:induction false} PutAllLast<X(!new), V>(acc: Record<V>, xs: seq<X>, owner: X -> Option<string>, value: X -> V, k: string)
    ensures var mine := Seqs.Filter(xs, OwnerIs(owner, k));
            Get(PutAll(acc, xs, owner, value), k) == if |mine| == 0 then Get(acc, k) else Some(value(mine[|mine| - 1]))
  {
    PutAllEntry(acc, xs, owner, value, k);
    LastOwnedFiltered(xs, owner, k);
  }

  /** One more element changes the entry under `k` only when `k` owns it. */
  lemma PutAllSnoc<X, V>(acc: Record<V>, prefix: seq<X>, x: X, owner: X -> Option<string>, value: X -> V, k: string)
    ensures Get(PutAll(acc, prefix + [x], owner, value), k)
            == if owner(x) == Some(k) then Some(value(x)) else Get(PutAll(acc, prefix, owner, value), k)
  {
    assert (prefix + [x])[..|prefix|] == prefix;
  }

  /** Appends `x` to the group under `k`, starting an empty group when `k` has none. */
  function Push<T>(acc: Record<seq<T>>, k: string, x: T): Record<seq<T>>
  {
    match Get(acc, k)
    case None => Put(acc, k, [x])
    case Some(xs) => Put(acc, k, xs + [x])
  }

  function KeyIs<T>(key: T -> string, k: string): T -> bool
  {
    x => key(x) == k
  }

  /** The grouping `xs.reduce` builds with `Push`, element by element. */
  function GroupSpec<T>(xs: seq<T>, key: T -> string): Record<seq<T>>
    decreases |xs|
  {
    if |xs| == 0 then [] else Push(GroupSpec(xs[..|xs| - 1], key), key(xs[|xs| - 1]), xs[|xs| - 1])
  }

  function KeySeq<T>(xs: seq<T>, key: T -> string): (ks: seq<string>)
    ensures |ks| == |xs| && forall i :: 0 <= i < |xs| ==> ks[i] == key(xs[i])
  {
    seq(|xs|, i requires 0 <= i < |xs| => key(xs[i]))
  }

  /** The keys of the grouping are the distinct keys of the input, in order of first appearance. */
  lemma {:induction false} GroupSpecKeys<T>(xs: seq<T>, key: T -> string)
    ensures Keys(GroupSpec(xs, key)) == Seqs.Dedup(KeySeq(xs, key))
    ensures DistinctKeys(GroupSpec(xs, key))
    decreases |xs|
  {
    if |xs| > 0 {
      var n := |xs| - 1;
      GroupSpecKeys(xs[..n], key);
      assert KeySeq(xs, key)[..n] == KeySeq(xs[..n], key);
    }
    var r := GroupSpec(xs, key);
    forall i, j | 0 <= i < j < |r| ensures r[i].0 != r[j].0 {
      assert Keys(r)[i] == r[i].0 && Keys(r)[j] == r[j].0;
    }
  }

  /** Each element lands in exactly the group of its key, and every group keeps input order. */
  lemma {:induction false} GroupSpecValues<T(!new)>(xs: seq<T>, key: T -> string, k: string)
    ensures Get(GroupSpec(xs, key), k) == if k in KeySeq(xs, key) then Some(Seqs.Filter(xs, KeyIs(key, k))) else None
    decreases |xs|
  {
    if |xs| == 0 {
      assert KeySeq(xs, key) == [];
      assert GroupSpec(xs, key) == [];
      return;
    }
    var n := |xs| - 1;
    var prefix, x := xs[..n], xs[n];
    assert xs == prefix + [x];
    var g := GroupSpec(prefix, key);
    assert GroupSpec(xs, key) == Push(g, key(x), x);
    GroupSpecValues(prefix, key, k);
    var p := KeyIs(key, k);
    assert KeySeq(xs, key) == KeySeq(prefix, key) + [key(x)];
    Seqs.FilterAppend(prefix, [x], p);
    if k != key(x) {
      assert Seqs.Filter([x], p) == [];
      assert Get(GroupSpec(xs, key), k) == Get(g, k);
      assert (k in KeySeq(xs, key)) == (k in KeySeq(prefix, key));
      assert Seqs.Filter(xs, p) == Seqs.Filter(prefix, p);
    } else {
      assert Seqs.Filter([x], p) == [x];
      if k !in KeySeq(prefix, key) {
        forall y | y in prefix ensures !p(y) {
          var i :| 0 <= i < |prefix| && prefix[i] == y;
          assert KeySeq(prefix, key)[i] == key(y);
        }
        FilterNone(prefix, p);
        assert Get(g, k) == None;
        assert Push(g, k, x) == Put(g, k, [x]);
        assert Get(Push(g, k, x), k) == Some([x]);
        assert Seqs.Filter(xs, p) == [x];
      } else {
        var ys := Seqs.Filter(prefix, p);
        assert Get(g, k) == Some(ys);
        assert Push(g, k, x) == Put(g, k, ys + [x]);
        assert Get(Push(g, k, x), k) == Some(ys + [x]);
        assert Seqs.Filter(xs, p) == ys + [x];
      }
      assert k in KeySeq(xs, key);
    }
  }

  lemma {:induction false} FilterNone<T(!new)>(xs: seq<T>, p: T -> bool)
    requires forall x :: x in xs ==> !p(x)
    ensures Seqs.Filter(xs, p) == []
    decreases |xs|
  {
    if |xs| > 0 {
      FilterNone(xs[1..], p);
    }
  }

  /** The accumulation loop of a `reduce` that groups by key. */
  method GroupInto<T>(xs: seq<T>, key: T -> string) returns (groups: Record<seq<T>>)
    ensures groups == GroupSpec(xs, key)
  {
    groups := [];
    var i := 0;
    while i < |xs|
      invariant 0 <= i <= |xs|
      invariant groups == GroupSpec(xs[..i], key)
    {
      assert xs[..i + 1][..i] == xs[..i];
      groups := Push(groups, key(xs[i]), xs[i]);
      i := i + 1;
    }
    assert xs[..i] == xs;
  }

  /** A canonical array index such as `0` or `17` (not `017`), below 2^32 - 1. */
  predicate IsIndexKey(k: string)
  {
    |k| > 0 && (forall i :: 0 <= i < |k| ==> Text.IsDigit(k[i])) && (k[0] != '0' || |k| == 1)
    && Text.DigitsValue(k, 10) < 0xFFFF_FFFF
  }

  function IndexValue<V>(entry: (string, V)): int
  {
    if IsIndexKey(entry.0) then Text.DigitsValue(entry.0, 10) else 0
  }

  /**
   * `Object.entries`: keys that are array indices come first in ascending numeric order,
   * then the other keys in insertion order.
   */
  function Entries<V(!new)>(r: Record<V>): (e: Record<V>)
    ensures |e| == |r|
    ensures forall x :: x in e <==> x in r
    ensures (forall i :: 0 <= i < |r| ==> !IsIndexKey(r[i].0)) ==> e == r
  {
    var isIndex := (x: (string, V)) => IsIndexKey(x.0);
    var isOther := (x: (string, V)) => !IsIndexKey(x.0);
    var indices := Seqs.Filter(r, isIndex);
    var others := Seqs.Filter(r, isOther);
    FilterSplits(r, isIndex, isOther);
    var sorted := Seqs.SortBy(indices, IndexValue);
    assert forall x :: x in sorted <==> x in indices by {
      forall x ensures x in sorted <==> x in indices {
        assert x in sorted <==> x in multiset(sorted);
        assert x in indices <==> x in multiset(indices);
      }
    }
    // Both branches give the same value; the first also establishes, for the last ensures,
    // that when no key is an index neither filter drops or reorders an entry.
    if forall i :: 0 <= i < |r| ==> !IsIndexKey(r[i].0) then
      FilterNone(r, isIndex);
      Seqs.FilterAll(r, isOther);
      Seqs.SortBy(indices, IndexValue) + others
    else
      Seqs.SortBy(indices, IndexValue) + others
  }

  /** A filter and its complement share out the elements between them. */
  lemma {:induction false} FilterSplits<T(!new)>(xs: seq<T>, p: T -> bool, q: T -> bool)
    requires forall x :: q(x) == !p(x)
    ensures |Seqs.Filter(xs, p)| + |Seqs.Filter(xs, q)| == |xs|
    decreases |xs|
  {
    if |xs| > 0 {
      FilterSplits(xs[1..], p, q);
    }
  }
}
