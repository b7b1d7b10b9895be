/**
 * The exchanges worker: for about a minute it repeatedly picks the open transactions,
 * locks a batch, fetches each user's exchanges from the PFIs, runs the quote, order,
 * status and close triggers on them and releases the locks.
 *
 * Every `Promise.all` of the worker is run here one element after the other, in input
 * order: every element runs to its end, and the first rejection in input order is the
 * outcome of the batch. The PFIs' answers are a parameter.
 */
module Reconcile {
  import opened Wrappers
  import opened Schema
  import opened Messages
  import Seqs
  import opened Records
  import opened Db
  import opened Triggers
  import Locks
  import TriggerLemmas

  /** At most this many transactions are locked per pass. */
  const BatchSize := 100
  /** The worker stops starting passes once this many milliseconds have gone by. */
  const RunBudgetMs := 60 * 1000
  /** The error of a `getExchanges` request that fails. */
  const FetchFailed := "getExchanges failed"

  /**
   * What each PFI answers to `getExchanges` for a user's DID and the PFI's DID: the user's
   * exchanges with it, each a list of messages. A missing pair is a request that fails.
   */
  type Remote = map<(string, string), seq<seq<Message>>>

  /** One exchange's messages sorted by kind, each bucket in message order. */
  datatype ExchangeMap = ExchangeMap(
    rfqs: seq<Metadata>,
    quotes: seq<QuoteMsg>,
    orders: seq<OrderMsg>,
    statusUpdates: seq<OrderStatusMsg>,
    closes: seq<CloseMsg>)
  {
    function Size(): nat { |rfqs| + |quotes| + |orders| + |statusUpdates| + |closes| }
  }

  // ---------------------------------------------------------------- selecting a batch

  predicate IsOpen(t: TransactionRow) { !IsTerminal(t.status) }

  /** The transactions a pass tries to lock: the first hundred that are neither cancelled nor complete. */
  function Candidates(db: DbState): (r: seq<TransactionRow>)
    ensures |r| <= BatchSize
    ensures forall t :: t in r ==> t in db.transactions && IsOpen(t)
    ensures |r| < BatchSize ==> forall t :: t in db.transactions && IsOpen(t) ==> t in r
  {
    var open := Seqs.Filter(db.transactions, IsOpen);
    if |open| <= BatchSize then open else open[..BatchSize]
  }

  function UserIdOf(t: TransactionRow): string { t.userId }

  /** The user ids of the claimed transactions, each once, in order of first appearance. */
  function ClaimedUsers(claimed: seq<TransactionRow>): (ids: seq<string>)
    ensures forall t :: t in claimed ==> t.userId in ids
    ensures forall id :: id in ids ==> exists t :: t in claimed && t.userId == id
    ensures forall i, j :: 0 <= i < j < |ids| ==> ids[i] != ids[j]
  {
    var all := seq(|claimed|, i requires 0 <= i < |claimed| => claimed[i].userId);
    assert forall t :: t in claimed ==> t.userId in all by {
      forall t | t in claimed ensures t.userId in all {
        var i :| 0 <= i < |claimed| && claimed[i] == t;
        assert all[i] == t.userId;
      }
    }
    Seqs.Dedup(all)
  }

  function PfiDidOf(t: TransactionRow): string { t.pfiDid }

  // ---------------------------------------------------------------- sorting exchanges

  /** The five `filter`s by message class over one exchange. */
  function Partition(exchange: seq<Message>): (m: ExchangeMap)
    ensures m.Size() == |exchange|
    ensures forall meta :: meta in m.rfqs <==> RfqMessage(meta) in exchange
    ensures forall q :: q in m.quotes <==> QuoteMessage(q) in exchange
    ensures forall o :: o in m.orders <==> OrderMessage(o) in exchange
    ensures forall s :: s in m.statusUpdates <==> StatusMessage(s) in exchange
    ensures forall c :: c in m.closes <==> CloseMessage(c) in exchange
    decreases |exchange|
  {
    if |exchange| == 0 then ExchangeMap([], [], [], [], [])
    else
      assert exchange == [exchange[0]] + exchange[1..];
      var rest := Partition(exchange[1..]);
      match exchange[0]
      case RfqMessage(meta) => rest.(rfqs := [meta] + rest.rfqs)
      case QuoteMessage(q) => rest.(quotes := [q] + rest.quotes)
      case OrderMessage(o) => rest.(orders := [o] + rest.orders)
      case StatusMessage(s) => rest.(statusUpdates := [s] + rest.statusUpdates)
      case CloseMessage(c) => rest.(closes := [c] + rest.closes)
  }

  function ExchangeIdIs(exchangeId: string): TransactionRow -> bool
  {
    (t: TransactionRow) => t.exchangeId == exchangeId
  }

  /** The transaction an exchange belongs to: the first whose exchange id is the id of the exchange's first message. */
  function ExchangeTransaction(exchange: seq<Message>, txs: seq<TransactionRow>): (r: Option<TransactionRow>)
    ensures r.Some? ==> |exchange| > 0 && r.value in txs && r.value.exchangeId == exchange[0].Id()
    ensures r.None? <==> |exchange| == 0 || forall t :: t in txs ==> t.exchangeId != exchange[0].Id()
  {
    if |exchange| == 0 then None else Seqs.Find(txs, ExchangeIdIs(exchange[0].Id()))
  }

  /** The id of the transaction an exchange belongs to, if any. */
  function TransactionIdOf(txs: seq<TransactionRow>): seq<Message> -> Option<string>
  {
    e => match ExchangeTransaction(e, txs)
         case None => None
         case Some(t) => Some(t.id)
  }

  /** `populateTransactionExchangeMap`, exchange after exchange: a later exchange of the same transaction replaces an earlier one. */
  function Populate(acc: Record<ExchangeMap>, exchanges: seq<seq<Message>>, txs: seq<TransactionRow>): Record<ExchangeMap>
  {
    PutAll(acc, exchanges, TransactionIdOf(txs), Partition)
  }

  /** `fetchExchanges`, PFI after PFI: None when a request fails. */
  function Fetch(user: UserRow, groups: Record<seq<TransactionRow>>, remote: Remote, acc: Record<ExchangeMap>)
    : (r: Option<Record<ExchangeMap>>)
    ensures r.None? <==> exists g :: g in groups && (user.did, g.0) !in remote
    decreases |groups|
  {
    if |groups| == 0 then Some(acc)
    else
      assert groups == [groups[0]] + groups[1..];
      var (pfiDid, txs) := groups[0];
      if (user.did, pfiDid) !in remote then None
      else Fetch(user, groups[1..], remote, Populate(acc, remote[(user.did, pfiDid)], txs))
  }

  // ---------------------------------------------------------------- running the triggers

  /** The four triggers on one transaction, all given the same snapshot `tx`; the first error stops them. */
  function ExchangeSteps(db: DbState, user: UserRow, tx: TransactionRow, m: ExchangeMap, now: int): Step
  {
    var s1 := QuoteStep(db, user, tx, m.quotes, now);
    if s1.outcome.Threw? then s1
    else
      var s2 := OrderStep(s1.db, user, tx, m.orders);
      if s2.outcome.Threw? then s2
      else
        var s3 := StatusUpdateStep(s2.db, user, tx, m.statusUpdates);
        if s3.outcome.Threw? then s3
        else CloseStep(s3.db, user, tx, m.closes, None)
  }

  /**
   * What `Promise.all` reports for callbacks that all ran: the first rejection, taking the
   * callbacks in input order, or success.
   */
  function FirstThrow(first: Outcome, rest: Outcome): (r: Outcome)
    ensures r.Done? <==> first.Done? && rest.Done?
    ensures first.Threw? ==> r == first
  {
    if first.Threw? then first else rest
  }

  /**
   * `processExchanges`, entry after entry; a key naming no claimed transaction is skipped.
   * Under `Promise.all` a throw in one entry does not stop the others: every entry runs, and
   * the first throw is the outcome.
   */
  function Dispatch(db: DbState, user: UserRow, entries: Record<ExchangeMap>, claimed: seq<TransactionRow>, now: int): Step
    decreases |entries|
  {
    if |entries| == 0 then Step(db, Done)
    else match Seqs.Find(claimed, TxIdIs(entries[0].0))
      case None => Dispatch(db, user, entries[1..], claimed, now)
      case Some(tx) =>
        var s := ExchangeSteps(db, user, tx, entries[0].1, now);
        var rest := Dispatch(s.db, user, entries[1..], claimed, now);
        Step(rest.db, FirstThrow(s.outcome, rest.outcome))
  }

  /**
   * `processUserTransactions`, user after user; a user id with no user row is skipped. A
   * failed fetch ends that user's callback without processing; as in `Dispatch`, the other
   * users still run and the first throw is the outcome.
   */
  function ProcessUsersSpec(db: DbState, userIds: seq<string>, claimed: seq<TransactionRow>, remote: Remote, now: int): Step
    decreases |userIds|
  {
    if |userIds| == 0 then Step(db, Done)
    else match FindUser(db, userIds[0])
      case None => ProcessUsersSpec(db, userIds[1..], claimed, remote, now)
      case Some(user) =>
        var s := UserStep(db, user, claimed, remote, now);
        var rest := ProcessUsersSpec(s.db, userIds[1..], claimed, remote, now);
        Step(rest.db, FirstThrow(s.outcome, rest.outcome))
  }

  /** One user's callback in `processUserTransactions`: fetch their exchanges, then dispatch them. */
  function UserStep(db: DbState, user: UserRow, claimed: seq<TransactionRow>, remote: Remote, now: int): Step
  {
    var groups := GroupSpec(Seqs.Filter(claimed, OwnedBy(user.id)), PfiDidOf);
    match Fetch(user, groups, remote, [])
    case None => Step(db, Threw(FetchFailed))
    case Some(entries) => Dispatch(db, user, entries, claimed, now)
  }

  /**
   * One pass of the worker's loop at time `now` (milliseconds): the database and lock
   * namespace after it. The `finally` releases whatever was claimed, on every path.
   */
  function PassSpec(db: DbState, kv: Locks.Namespace, remote: Remote, now: int): (Step, Locks.Namespace)
  {
    var candidates := Candidates(db);
    if |candidates| == 0 then (Step(db, Done), kv)
    else
      var (claimed, locked) := Locks.ClaimSpec(kv, candidates, now / 1000);
      var step := if |claimed| == 0 then Step(db, Done) else ProcessUsersSpec(db, ClaimedUsers(claimed), claimed, remote, now);
      (step, locked - Locks.LockKeys(claimed))
  }

  // ---------------------------------------------------------------- the worker on the store

  /** The `forEach` of `populateTransactionExchangeMap`, assigning into the accumulator. */
  method PopulateExchangeMap(acc: Record<ExchangeMap>, exchanges: seq<seq<Message>>, txs: seq<TransactionRow>)
    returns (r: Record<ExchangeMap>)
    ensures r == Populate(acc, exchanges, txs)
  {
    r := acc;
    var i := 0;
    while i < |exchanges|
      invariant 0 <= i <= |exchanges|
      invariant r == Populate(acc, exchanges[..i], txs)
    {
      assert exchanges[..i + 1][..i] == exchanges[..i];
      var exchange := exchanges[i];
      if |exchange| > 0 {
        var t := Seqs.Find(txs, ExchangeIdIs(exchange[0].Id()));
        if t.Some? {
          r := Put(r, t.value.id, Partition(exchange));
        }
      }
      i := i + 1;
    }
    assert exchanges[..i] == exchanges;
  }

  /** `fetchExchanges`: one request per PFI the user has transactions with. */
  method FetchExchanges(user: UserRow, groups: Record<seq<TransactionRow>>, remote: Remote)
    returns (r: Option<Record<ExchangeMap>>)
    ensures r == Fetch(user, groups, remote, [])
  {
    var acc: Record<ExchangeMap> := [];
    var i := 0;
    while i < |groups|
      invariant 0 <= i <= |groups|
      invariant Fetch(user, groups, remote, []) == Fetch(user, groups[i..], remote, acc)
    {
      assert groups[i..][0] == groups[i] && groups[i..][1..] == groups[i + 1..];
      var (pfiDid, txs) := groups[i];
      if (user.did, pfiDid) !in remote {
        return None;
      }
      acc := PopulateExchangeMap(acc, remote[(user.did, pfiDid)], txs);
      i := i + 1;
    }
    return Some(acc);
  }

  /** The body of `processExchanges`' callback for one transaction. */
  method ProcessExchange(store: Store, user: UserRow, tx: TransactionRow, m: ExchangeMap, now: int) returns (outcome: Outcome)
    modifies store
    ensures Step(store.Model(), outcome) == ExchangeSteps(old(store.Model()), user, tx, m, now)
  {
    outcome := ProcessQuote(store, user, tx, m.quotes, now);
    if outcome.Threw? {
      return;
    }
    outcome := ProcessOrder(store, user, tx, m.orders);
    if outcome.Threw? {
      return;
    }
    outcome := ProcessOrderStatusUpdate(store, user, tx, m.statusUpdates);
    if outcome.Threw? {
      return;
    }
    outcome := ProcessClose(store, user, tx, m.closes, None);
  }

  /** `processExchanges`. */
  method ProcessExchanges(store: Store, user: UserRow, entries: Record<ExchangeMap>, claimed: seq<TransactionRow>, now: int)
    returns (outcome: Outcome)
    modifies store
    ensures Step(store.Model(), outcome) == Dispatch(old(store.Model()), user, entries, claimed, now)
  {
    outcome := Done;
    var i := 0;
    while i < |entries|
      invariant 0 <= i <= |entries|
      invariant var rest := Dispatch(store.Model(), user, entries[i..], claimed, now);
                Dispatch(old(store.Model()), user, entries, claimed, now) == Step(rest.db, FirstThrow(outcome, rest.outcome))
    {
      assert entries[i..][0] == entries[i] && entries[i..][1..] == entries[i + 1..];
      var (transactionId, m) := entries[i];
      var tx := Seqs.Find(claimed, TxIdIs(transactionId));
      if tx.Some? {
        var result := ProcessExchange(store, user, tx.value, m, now);
        outcome := FirstThrow(outcome, result);
      }
      i := i + 1;
    }
  }

  /** `processUserTransactions`. */
  method ProcessUsers(store: Store, userIds: seq<string>, claimed: seq<TransactionRow>, remote: Remote, now: int)
    returns (outcome: Outcome)
    modifies store
    ensures Step(store.Model(), outcome) == ProcessUsersSpec(old(store.Model()), userIds, claimed, remote, now)
  {
    outcome := Done;
    var i := 0;
    while i < |userIds|
      invariant 0 <= i <= |userIds|
      invariant var rest := ProcessUsersSpec(store.Model(), userIds[i..], claimed, remote, now);
                ProcessUsersSpec(old(store.Model()), userIds, claimed, remote, now) == Step(rest.db, FirstThrow(outcome, rest.outcome))
    {
      assert userIds[i..][0] == userIds[i] && userIds[i..][1..] == userIds[i + 1..];
      var user := FindUser(store.Model(), userIds[i]);
      if user.Some? {
        var result := ProcessUser(store, user.value, claimed, remote, now);
        outcome := FirstThrow(outcome, result);
      }
      i := i + 1;
    }
  }

  /** The callback `processUserTransactions` runs for one user. */
  method ProcessUser(store: Store, user: UserRow, claimed: seq<TransactionRow>, remote: Remote, now: int)
    returns (outcome: Outcome)
    modifies store
    ensures Step(store.Model(), outcome) == UserStep(old(store.Model()), user, claimed, remote, now)
  {
    var groups := GroupInto(Seqs.Filter(claimed, OwnedBy(user.id)), PfiDidOf);
    var entries := FetchExchanges(user, groups, remote);
    if entries.None? {
      return Threw(FetchFailed);
    }
    outcome := ProcessExchanges(store, user, entries.value, claimed, now);
  }

  /** One iteration of `updateExchanges`' loop: claim, process, release in the `finally`. */
  method Pass(store: Store, locks: Locks.LockStore, remote: Remote, now: int) returns (outcome: Outcome)
    modifies store, locks
    ensures (Step(store.Model(), outcome), locks.entries) == PassSpec(old(store.Model()), old(locks.entries), remote, now)
  {
    var candidates := Candidates(store.Model());
    if |candidates| == 0 {
      return Done;
    }
    var claimed := locks.ClaimLocks(candidates, now / 1000);
    if |claimed| == 0 {
      locks.ReleaseLocks(claimed);
      return Done;
    }
    outcome := ProcessUsers(store, ClaimedUsers(claimed), claimed, remote, now);
    locks.ReleaseLocks(claimed);
  }

  /** A pass, seen from the loop around it: only what it keeps. */
  method KeptPass(store: Store, locks: Locks.LockStore, remote: Remote, now: int) returns (outcome: Outcome)
    modifies store, locks
    ensures LocksKept(old(locks.entries), locks.entries)
    ensures Grows(old(store.Model()), store.Model())
  {
    PassReleases(store.Model(), locks.entries, remote, now);
    PassGrows(store.Model(), locks.entries, remote, now);
    outcome := Pass(store, locks, remote, now);
  }

  /** One pass at a reading of the clock, from the database and the lock namespace it finds. */
  type PassFn = (DbState, Locks.Namespace, int) -> (Step, Locks.Namespace)

  function PassesOn(remote: Remote): PassFn
  {
    (db: DbState, kv: Locks.Namespace, now: int) => PassSpec(db, kv, remote, now)
  }

  /**
   * The run of passes over the clock readings: a pass at each reading taken while the
   * minute has not run out, stopping after the first pass whose error escapes. The result
   * is the last step, the lock namespace after it and the number of passes run.
   */
  function RunOf(pass: PassFn, db: DbState, kv: Locks.Namespace, start: int, clock: seq<int>): (r: (Step, Locks.Namespace, nat))
    ensures r.2 <= |clock|
    ensures forall k :: 0 <= k < r.2 ==> clock[k] - start < RunBudgetMs
    ensures r.0.outcome.Done? ==> r.2 == |clock| || clock[r.2] - start >= RunBudgetMs
    ensures r.0.outcome.Threw? ==> r.2 > 0
    decreases |clock|
  {
    if |clock| == 0 || clock[0] - start >= RunBudgetMs then (Step(db, Done), kv, 0)
    else
      var (step, kv1) := pass(db, kv, clock[0]);
      if step.outcome.Threw? then (step, kv1, 1)
      else
        var rest := RunOf(pass, step.db, kv1, start, clock[1..]);
        assert forall k :: 1 <= k < |clock| ==> clock[k] == clock[1..][k - 1];
        (rest.0, rest.1, rest.2 + 1)
  }

  /** `pass` does at `now`, from `db` and `kv`, what the pass specification does. */
  ghost predicate PassIs(pass: PassFn, remote: Remote, db: DbState, kv: Locks.Namespace, now: int)
  {
    pass(db, kv, now) == PassSpec(db, kv, remote, now)
  }

  ghost predicate Implements(pass: PassFn, remote: Remote)
  {
    forall db, kv, now :: PassIs(pass, remote, db, kv, now)
  }

  lemma PassesOnImplements(remote: Remote)
    ensures Implements(PassesOn(remote), remote)
  {
    forall db, kv, now ensures PassIs(PassesOn(remote), remote, db, kv, now) {
    }
  }

  /** A run's result with `n` more passes counted. */
  function Shift(r: (Step, Locks.Namespace, nat), n: nat): (Step, Locks.Namespace, nat)
  {
    (r.0, r.1, r.2 + n)
  }

  /** The run from reading `i` on, within the budget: that pass, then the rest unless it threw. */
  lemma RunStep(pass: PassFn, db: DbState, kv: Locks.Namespace, start: int, clock: seq<int>, i: nat)
    requires i < |clock| && clock[i] - start < RunBudgetMs
    ensures var p := pass(db, kv, clock[i]);
            RunOf(pass, db, kv, start, clock[i..])
            == if p.0.outcome.Threw? then (p.0, p.1, 1) else Shift(RunOf(pass, p.0.db, p.1, start, clock[i + 1..]), 1)
  {
    assert clock[i..][0] == clock[i] && clock[i..][1..] == clock[i + 1..];
  }

  /** The run from reading `i` on, when the readings are used up or the budget is spent: no pass. */
  lemma RunEnd(pass: PassFn, db: DbState, kv: Locks.Namespace, start: int, clock: seq<int>, i: nat)
    requires i <= |clock| && (i == |clock| || clock[i] - start >= RunBudgetMs)
    ensures RunOf(pass, db, kv, start, clock[i..]) == (Step(db, Done), kv, 0)
  {
    if i < |clock| {
      assert clock[i..][0] == clock[i];
    }
  }

  /** However many passes run, no lock survives that was not there before, and the database only grows. */
  lemma {:induction false} RunKeeps(db: DbState, kv: Locks.Namespace, remote: Remote, start: int, clock: seq<int>)
    ensures var r := RunOf(PassesOn(remote), db, kv, start, clock);
            LocksKept(kv, r.1) && Grows(db, r.0.db)
    decreases |clock|
  {
    if |clock| > 0 && clock[0] - start < RunBudgetMs {
      var (step, kv1) := PassSpec(db, kv, remote, clock[0]);
      assert PassesOn(remote)(db, kv, clock[0]) == (step, kv1);
      PassReleases(db, kv, remote, clock[0]);
      PassGrows(db, kv, remote, clock[0]);
      if !step.outcome.Threw? {
        RunKeeps(step.db, kv1, remote, start, clock[1..]);
        var r := RunOf(PassesOn(remote), step.db, kv1, start, clock[1..]);
        LocksKeptChain(kv, kv1, r.1);
        GrowsChain(db, step.db, r.0.db);
      }
    }
  }

  /**
   * `updateExchanges`. `start` is the first reading of the clock and `clock` the readings
   * taken where the loop condition is evaluated; the run ends when a reading is a minute
   * past `start`, when an error escapes a pass, or when the readings run out. `passes`
   * counts the passes run.
   */
  method UpdateExchanges(store: Store, locks: Locks.LockStore, remote: Remote, start: int, clock: seq<int>)
    returns (outcome: Outcome, passes: nat)
    modifies store, locks
    ensures (Step(store.Model(), outcome), locks.entries, passes) == RunOf(PassesOn(remote), old(store.Model()), old(locks.entries), start, clock)
    ensures passes <= |clock|
    ensures forall k :: 0 <= k < passes ==> clock[k] - start < RunBudgetMs
    ensures outcome.Done? ==> passes == |clock| || clock[passes] - start >= RunBudgetMs
    ensures LocksKept(old(locks.entries), locks.entries)
    ensures Grows(old(store.Model()), store.Model())
  {
    RunKeeps(store.Model(), locks.entries, remote, start, clock);
    PassesOnImplements(remote);
    outcome, passes := RunPasses(store, locks, remote, start, clock, PassesOn(remote));
  }

  /** A pass, seen from the loop around it: what `pass` does. */
  method PassBy(store: Store, locks: Locks.LockStore, remote: Remote, now: int, ghost pass: PassFn) returns (outcome: Outcome)
    requires Implements(pass, remote)
    modifies store, locks
    ensures (Step(store.Model(), outcome), locks.entries) == pass(old(store.Model()), old(locks.entries), now)
  {
    assert PassIs(pass, remote, store.Model(), locks.entries, now);
    outcome := Pass(store, locks, remote, now);
  }

  /** The loop of `updateExchanges`, proved for any `pass` that does what the pass specification does. */
  method RunPasses(store: Store, locks: Locks.LockStore, remote: Remote, start: int, clock: seq<int>, ghost pass: PassFn)
    returns (outcome: Outcome, passes: nat)
    requires Implements(pass, remote)
    modifies store, locks
    ensures (Step(store.Model(), outcome), locks.entries, passes) == RunOf(pass, old(store.Model()), old(locks.entries), start, clock)
  {
    ghost var db0, kv0 := store.Model(), locks.entries;
    assert clock[0..] == clock;
    outcome := Done;
    passes := 0;
    while passes < |clock| && clock[passes] - start < RunBudgetMs
      invariant passes <= |clock|
      invariant RunOf(pass, db0, kv0, start, clock) == Shift(RunOf(pass, store.Model(), locks.entries, start, clock[passes..]), passes)
      decreases |clock| - passes
    {
      ghost var db, kv := store.Model(), locks.entries;
      RunStep(pass, db, kv, start, clock, passes);
      var result := PassBy(store, locks, remote, clock[passes], pass);
      passes := passes + 1;
      if result.Threw? {
        return result, passes;
      }
    }
    RunEnd(pass, store.Model(), locks.entries, start, clock, passes);
  }

  // ---------------------------------------------------------------- what a pass keeps

  /** `after` holds no lock `before` did not, and every lock it holds is as it was. */
  ghost predicate LocksKept(before: Locks.Namespace, after: Locks.Namespace)
  {
    after.Keys <= before.Keys && forall key :: key in after ==> after[key] == before[key]
  }

  lemma LocksKeptChain(a: Locks.Namespace, b: Locks.Namespace, c: Locks.Namespace)
    requires LocksKept(a, b) && LocksKept(b, c)
    ensures LocksKept(a, c)
  {
  }

  /** Every lock a pass takes is released on every path, and no lock it did not take is touched. */
  lemma PassReleases(db: DbState, kv: Locks.Namespace, remote: Remote, now: int)
    ensures LocksKept(kv, PassSpec(db, kv, remote, now).1)
  {
    var candidates := Candidates(db);
    if |candidates| > 0 {
    }
  }

  lemma GrowsChain(a: DbState, b: DbState, c: DbState)
    requires Grows(a, b) && Grows(b, c)
    ensures Grows(a, c)
  {
  }

  /** A pass leaves users and transaction rows (but their status) alone, and the other tables only grow. */
  lemma PassGrows(db: DbState, kv: Locks.Namespace, remote: Remote, now: int)
    ensures Grows(db, PassSpec(db, kv, remote, now).0.db)
  {
    var candidates := Candidates(db);
    if |candidates| > 0 {
      var (claimed, locked) := Locks.ClaimSpec(kv, candidates, now / 1000);
      if |claimed| > 0 {
        ProcessUsersGrows(db, ClaimedUsers(claimed), claimed, remote, now);
      }
    }
  }

  lemma {:induction false} ProcessUsersGrows(db: DbState, userIds: seq<string>, claimed: seq<TransactionRow>, remote: Remote, now: int)
    ensures Grows(db, ProcessUsersSpec(db, userIds, claimed, remote, now).db)
    decreases |userIds|
  {
    if |userIds| > 0 {
      match FindUser(db, userIds[0])
      case None =>
        ProcessUsersGrows(db, userIds[1..], claimed, remote, now);
      case Some(user) =>
        var s := UserStep(db, user, claimed, remote, now);
        var groups := GroupSpec(Seqs.Filter(claimed, OwnedBy(user.id)), PfiDidOf);
        match Fetch(user, groups, remote, []) {
          case None =>
          case Some(entries) => DispatchGrows(db, user, entries, claimed, now);
        }
        ProcessUsersGrows(s.db, userIds[1..], claimed, remote, now);
        GrowsChain(db, s.db, ProcessUsersSpec(s.db, userIds[1..], claimed, remote, now).db);
    }
  }

  /** One user's dispatch changes the database as the triggers do, and texts only that user. */
  lemma {:induction false} DispatchGrows(db: DbState, user: UserRow, entries: Record<ExchangeMap>, claimed: seq<TransactionRow>, now: int)
    ensures var r := Dispatch(db, user, entries, claimed, now).db;
            Grows(db, r) && SentOnlyTo(db, r, user.phoneNumber)
    decreases |entries|
  {
    if |entries| > 0 {
      match Seqs.Find(claimed, TxIdIs(entries[0].0))
      case None =>
        DispatchGrows(db, user, entries[1..], claimed, now);
      case Some(tx) =>
        var s := ExchangeSteps(db, user, tx, entries[0].1, now);
        ExchangeStepsGrow(db, user, tx, entries[0].1, now);
        DispatchGrows(s.db, user, entries[1..], claimed, now);
        GrowsTrans(db, s.db, Dispatch(s.db, user, entries[1..], claimed, now).db, user.phoneNumber);
    }
  }

  lemma ExchangeStepsGrow(db: DbState, user: UserRow, tx: TransactionRow, m: ExchangeMap, now: int)
    ensures var r := ExchangeSteps(db, user, tx, m, now).db;
            Grows(db, r) && SentOnlyTo(db, r, user.phoneNumber)
  {
    var s1 := QuoteStep(db, user, tx, m.quotes, now);
    TriggerLemmas.QuoteStepGrows(db, user, tx, m.quotes, now);
    if s1.outcome.Done? {
      var s2 := OrderStep(s1.db, user, tx, m.orders);
      TriggerLemmas.OrderStepGrows(s1.db, user, tx, m.orders);
      GrowsTrans(db, s1.db, s2.db, user.phoneNumber);
      if s2.outcome.Done? {
        var s3 := StatusUpdateStep(s2.db, user, tx, m.statusUpdates);
        TriggerLemmas.TriggersGrow(s2.db, user, tx, [], [], m.statusUpdates, [], None, now);
        GrowsTrans(db, s2.db, s3.db, user.phoneNumber);
        if s3.outcome.Done? {
          TriggerLemmas.CloseStepGrows(s3.db, user, tx, m.closes, None);
          GrowsTrans(db, s3.db, CloseStep(s3.db, user, tx, m.closes, None).db, user.phoneNumber);
        }
      }
    }
  }
}
