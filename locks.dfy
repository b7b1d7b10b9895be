/**
 * The per-transaction processing locks: entries of a key/value namespace with a time to
 * live. A worker claims a transaction by writing its lock key when no live lock is there,
 * and releases it by deleting the key. Times here are in seconds, the unit of the TTL.
 */
module Locks {
  import opened Schema
  import Seqs

  const LockPrefix: string := "update-exchanges-lock."
  const LockValue: string := "true"
  const LockTtlSeconds: int := 60 * 3

  /** The key both the claim and the release use. */
  function LockKey(transactionId: string): (key: string)
    ensures |key| == |LockPrefix| + |transactionId|
    ensures key[..|LockPrefix|] == LockPrefix && key[|LockPrefix|..] == transactionId
  {
    LockPrefix + transactionId
  }

  /** Distinct transactions never share a lock. */
  lemma LockKeyInjective(a: string, b: string)
    ensures LockKey(a) == LockKey(b) <==> a == b
  {
    if LockKey(a) == LockKey(b) {
      assert a == LockKey(a)[|LockPrefix|..];
    }
  }

  /** A stored value and the time at which the namespace stops returning it. */
  datatype LockEntry = LockEntry(value: string, expiresAt: int)

  type Namespace = map<string, LockEntry>

  /** The lock read finds a live entry whose value is a non-empty string. */
  predicate Held(kv: Namespace, key: string, now: int)
  {
    key in kv && now < kv[key].expiresAt && kv[key].value != ""
  }

  function Claimed(now: int): (entry: LockEntry)
    ensures entry.value == LockValue && entry.expiresAt == now + LockTtlSeconds
  {
    LockEntry(LockValue, now + LockTtlSeconds)
  }

  function LockKeys(txs: seq<TransactionRow>): set<string>
  {
    set t | t in txs :: LockKey(t.id)
  }

  lemma LockKeysSnoc(txs: seq<TransactionRow>, t: TransactionRow)
    ensures LockKeys(txs + [t]) == LockKeys(txs) + {LockKey(t.id)}
  {
    assert forall u :: u in txs + [t] <==> u in txs || u == t;
  }

  /**
   * The claim, one transaction after the other: the claimed transactions and the namespace
   * after. Only the claimed transactions' keys are written, each with a fresh lock.
   */
  function ClaimSpec(kv: Namespace, txs: seq<TransactionRow>, now: int): (r: (seq<TransactionRow>, Namespace))
    ensures forall t :: t in r.0 ==> t in txs
    ensures forall t :: t in r.0 ==> LockKey(t.id) in r.1 && r.1[LockKey(t.id)] == Claimed(now)
    ensures r.1.Keys == kv.Keys + LockKeys(r.0)
    ensures forall k :: k in kv && k !in LockKeys(r.0) ==> r.1[k] == kv[k]
    decreases |txs|
  {
    if |txs| == 0 then ([], kv)
    else
      var n := |txs| - 1;
      var prev := ClaimSpec(kv, txs[..n], now);
      var t := txs[n];
      assert forall u :: u in prev.0 ==> u in txs by {
        forall u | u in prev.0 ensures u in txs { assert u in txs[..n]; }
      }
      if Held(prev.1, LockKey(t.id), now) then prev
      else
        ClaimExtend(kv, prev.0, prev.1, t, now, txs);
        (prev.0 + [t], prev.1[LockKey(t.id) := Claimed(now)])
  }

  /** Claiming one more transaction keeps the shape `ClaimSpec` promises. */
  lemma ClaimExtend(kv: Namespace, claimed: seq<TransactionRow>, ns: Namespace, t: TransactionRow, now: int, txs: seq<TransactionRow>)
    requires t in txs && forall u :: u in claimed ==> u in txs
    requires forall u :: u in claimed ==> LockKey(u.id) in ns && ns[LockKey(u.id)] == Claimed(now)
    requires ns.Keys == kv.Keys + LockKeys(claimed)
    requires forall k :: k in kv && k !in LockKeys(claimed) ==> ns[k] == kv[k]
    ensures var (c, n) := (claimed + [t], ns[LockKey(t.id) := Claimed(now)]);
            && (forall u :: u in c ==> u in txs)
            && (forall u :: u in c ==> LockKey(u.id) in n && n[LockKey(u.id)] == Claimed(now))
            && n.Keys == kv.Keys + LockKeys(c)
            && (forall k :: k in kv && k !in LockKeys(c) ==> n[k] == kv[k])
  {
    LockKeysSnoc(claimed, t);
  }

  /** The transactions of `txs` whose ids are pairwise distinct, as transaction ids are. */
  ghost predicate DistinctIds(txs: seq<TransactionRow>)
  {
    forall i, j :: 0 <= i < j < |txs| ==> txs[i].id != txs[j].id
  }

  predicate Free(kv: Namespace, now: int, t: TransactionRow)
  {
    !Held(kv, LockKey(t.id), now)
  }

  function FreeIn(kv: Namespace, now: int): TransactionRow -> bool
  {
    t => Free(kv, now, t)
  }

  /** One more transaction, with an id not seen before, is claimed exactly when it is free. */
  lemma ClaimSpecStep(kv: Namespace, txs: seq<TransactionRow>, now: int)
    requires |txs| > 0 && DistinctIds(txs)
    ensures var n := |txs| - 1;
            ClaimSpec(kv, txs, now).0 == ClaimSpec(kv, txs[..n], now).0 + if Free(kv, now, txs[n]) then [txs[n]] else []
  {
    var n := |txs| - 1;
    var t := txs[n];
    var prev := ClaimSpec(kv, txs[..n], now);
    var key := LockKey(t.id);
    forall u | u in prev.0 ensures LockKey(u.id) != key {
      var j :| 0 <= j < n && txs[..n][j] == u;
      assert txs[j].id != txs[n].id;
      LockKeyInjective(u.id, t.id);
    }
    assert key !in LockKeys(prev.0);
    assert Held(prev.1, key, now) == Held(kv, key, now);
  }

  /** With distinct ids, exactly the transactions without a live lock are claimed, in input order. */
  lemma {:induction false} ClaimSpecClaimsFree(kv: Namespace, txs: seq<TransactionRow>, now: int)
    requires DistinctIds(txs)
    ensures ClaimSpec(kv, txs, now).0 == Seqs.Filter(txs, FreeIn(kv, now))
    decreases |txs|
  {
    if |txs| > 0 {
      var n := |txs| - 1;
      ClaimSpecClaimsFree(kv, txs[..n], now);
      ClaimSpecStep(kv, txs, now);
      Seqs.FilterLast(txs, FreeIn(kv, now));
    }
  }

  /**
   * Mutual exclusion: before the TTL runs out, a second claim on the state the first one
   * left obtains none of the transactions the first one claimed.
   */
  lemma ClaimIsExclusive(kv: Namespace, txs: seq<TransactionRow>, now: int, others: seq<TransactionRow>, later: int)
    requires now <= later < now + LockTtlSeconds
    ensures var first := ClaimSpec(kv, txs, now);
            var second := ClaimSpec(first.1, others, later);
            forall t :: t in first.0 ==> t !in second.0
  {
    var first := ClaimSpec(kv, txs, now);
    forall t | t in first.0 ensures t !in ClaimSpec(first.1, others, later).0 {
      assert Held(first.1, LockKey(t.id), later);
      if t in ClaimSpec(first.1, others, later).0 {
        ClaimedWasFree(first.1, others, later, t);
      }
    }
  }

  /** A live lock survives any claim. */
  lemma {:induction false} StaysHeld(kv: Namespace, txs: seq<TransactionRow>, now: int, key: string)
    requires Held(kv, key, now)
    ensures key in ClaimSpec(kv, txs, now).1 && ClaimSpec(kv, txs, now).1[key] == kv[key]
    decreases |txs|
  {
    if |txs| > 0 {
      StaysHeld(kv, txs[..|txs| - 1], now, key);
    }
  }

  /** A transaction is claimed only when its key held no live lock beforehand. */
  lemma {:induction false} ClaimedWasFree(kv: Namespace, txs: seq<TransactionRow>, now: int, t: TransactionRow)
    requires t in ClaimSpec(kv, txs, now).0
    ensures !Held(kv, LockKey(t.id), now)
    decreases |txs|
  {
    var n := |txs| - 1;
    var prev := ClaimSpec(kv, txs[..n], now);
    if t in prev.0 {
      ClaimedWasFree(kv, txs[..n], now, t);
    } else if Held(kv, LockKey(t.id), now) {
      StaysHeld(kv, txs[..n], now, LockKey(t.id));
    }
  }

  /** Once the TTL has passed, a claimed lock no longer blocks a claim. */
  lemma ClaimExpires(kv: Namespace, txs: seq<TransactionRow>, now: int, t: TransactionRow, later: int)
    requires t in ClaimSpec(kv, txs, now).0 && later >= now + LockTtlSeconds
    ensures !Held(ClaimSpec(kv, txs, now).1, LockKey(t.id), later)
  {
  }

  /** After a release, the released transactions can all be claimed again. */
  lemma ReleaseFrees(kv: Namespace, txs: seq<TransactionRow>, now: int)
    requires DistinctIds(txs)
    ensures ClaimSpec(kv - LockKeys(txs), txs, now).0 == txs
  {
    var freed := kv - LockKeys(txs);
    ClaimSpecClaimsFree(freed, txs, now);
    Seqs.FilterAll(txs, FreeIn(freed, now));
  }

  lemma ClaimSpecSnoc(kv: Namespace, txs: seq<TransactionRow>, now: int)
    requires |txs| > 0
    ensures var prev := ClaimSpec(kv, txs[..|txs| - 1], now);
            var t := txs[|txs| - 1];
            ClaimSpec(kv, txs, now)
            == if Held(prev.1, LockKey(t.id), now) then prev
               else (prev.0 + [t], prev.1[LockKey(t.id) := LockEntry(LockValue, now + LockTtlSeconds)])
  {
  }

  /** The lock namespace. */
  class LockStore {
    var entries: Namespace

    constructor (initial: Namespace)
      ensures entries == initial
    {
      entries := initial;
    }

    /** `claimTransactionProcessingLocks`: get, then put when the get was falsy. */
    method ClaimLocks(txs: seq<TransactionRow>, now: int) returns (claimed: seq<TransactionRow>)
      modifies this
      ensures (claimed, entries) == ClaimSpec(old(entries), txs, now)
    {
      ghost var kv := entries;
      claimed := [];
      var i := 0;
      while i < |txs|
        invariant 0 <= i <= |txs|
        invariant claimed == ClaimSpec(kv, txs[..i], now).0
        invariant entries == ClaimSpec(kv, txs[..i], now).1
      {
        var key := LockKey(txs[i].id);
        ClaimSpecSnoc(kv, txs[..i + 1], now);
        assert txs[..i + 1][..i] == txs[..i];
        if !Held(entries, key, now) {
          entries := entries[key := LockEntry(LockValue, now + LockTtlSeconds)];
          claimed := claimed + [txs[i]];
        }
        i := i + 1;
      }
      assert txs[..i] == txs;
    }

    /** `releaseTransactionProcessingLocks`: deletes every given transaction's key. */
    method ReleaseLocks(txs: seq<TransactionRow>)
      modifies this
      ensures entries == old(entries) - LockKeys(txs)
    {
      var i := 0;
      while i < |txs|
        invariant 0 <= i <= |txs|
        invariant entries == old(entries) - LockKeys(txs[..i])
      {
        assert LockKeys(txs[..i + 1]) == LockKeys(txs[..i]) + {LockKey(txs[i].id)} by {
          assert txs[..i + 1] == txs[..i] + [txs[i]];
        }
        entries := entries - {LockKey(txs[i].id)};
        i := i + 1;
      }
      assert txs[..i] == txs;
    }
  }
}
