/** What one pass of the exchanges worker does with the exchanges it fetched. */
module ReconcileLemmas {
  import opened Wrappers
  import opened Schema
  import opened Messages
  import Seqs
  import opened Records
  import opened Db
  import opened Sms
  import opened Triggers
  import opened Reconcile
  import TriggerLemmas

  /** The exchanges of `exchanges` that `populateTransactionExchangeMap` files under transaction `id`. */
  function BelongsTo(txs: seq<TransactionRow>, id: string): seq<Message> -> bool
  {
    OwnerIs(TransactionIdOf(txs), id)
  }

  /**
   * The entry of a transaction after populating is the LAST of the fetched exchanges that
   * belongs to it, sorted by kind; without one, the entry is what it was.
   */
  lemma {:induction false} PopulateEntry(acc: Record<ExchangeMap>, exchanges: seq<seq<Message>>, txs: seq<TransactionRow>, id: string)
    ensures var mine := Seqs.Filter(exchanges, BelongsTo(txs, id));
            Get(Populate(acc, exchanges, txs), id) == if |mine| == 0 then Get(acc, id) else Some(Partition(mine[|mine| - 1]))
  {
    var owner := TransactionIdOf(txs);
    var populated := PutAll(acc, exchanges, owner, Partition);
    assert Populate(acc, exchanges, txs) == populated;
    assert BelongsTo(txs, id) == OwnerIs(owner, id);
    PutAllLast(acc, exchanges, owner, Partition, id);
  }

  /**
   * The triggers all see the snapshot read at the start of the pass: a transaction that was
   * pending then can only be quoted in this pass, whatever else its exchange holds.
   */
  lemma PendingSnapshotOnlyQuotes(db: DbState, user: UserRow, tx: TransactionRow, m: ExchangeMap, now: int)
    requires tx.status == Pending
    ensures ExchangeSteps(db, user, tx, m, now) == QuoteStep(db, user, tx, m.quotes, now)
  {
  }

  /**
   * Also from the stale snapshot: a quoted Regular transaction whose user has no credit is
   * cancelled by its order, and then the close in the same exchange still completes it; the
   * user gets the insufficient-credit notice, the completion notice and the rating prompt.
   */
  lemma CancelledThenCompleted(db: DbState, user: UserRow, tx: TransactionRow, m: ExchangeMap, now: int)
    requires tx.status == Quote && tx.txType == Regular && Balance(db, user.id) < 1
    requires |m.orders| > 0 && |m.closes| > 0 && m.closes[0].success != Some(false)
    requires FindTransaction(db, tx.id) == Some(tx)
    ensures var r := ExchangeSteps(db, user, tx, m, now);
            r.outcome == Done
            && FindTransaction(r.db, tx.id) == Some(tx.(status := Complete))
            && r.db.outbox == db.outbox + [Sms(user.phoneNumber, CloseBody(tx.id, false, Some(InsufficientCredit))),
                                           Sms(user.phoneNumber, CloseBody(tx.id, true, None)),
                                           Sms(user.phoneNumber, RatePromptBody(tx.id))]
  {
    QuotedSnapshotSkipsUpdates(db, user, tx, m, now);
    var s2 := OrderStep(db, user, tx, m.orders);
    TriggerLemmas.OrderStepInsufficient(db, user, tx, m.orders, tx);
    var r := CloseStep(s2.db, user, tx, m.closes, None);
    TriggerLemmas.CloseStepCloses(s2.db, user, tx, m.closes, None, tx.(status := Cancelled));
    assert WalletReason(false, Regular) == None;
    var insufficient := Sms(user.phoneNumber, CloseBody(tx.id, false, Some(InsufficientCredit)));
    var completed := Sms(user.phoneNumber, CloseBody(tx.id, true, None));
    var prompt := Sms(user.phoneNumber, RatePromptBody(tx.id));
    assert r.db.outbox == s2.db.outbox + [completed] + [prompt];
    AppendThree(db.outbox, insufficient, completed, prompt);
  }

  lemma AppendThree<T>(s: seq<T>, a: T, b: T, c: T)
    ensures s + [a] + [b] + [c] == s + [a, b, c]
  {
  }

  /** From a quoted snapshot only the order and the close trigger can fire. */
  lemma QuotedSnapshotSkipsUpdates(db: DbState, user: UserRow, tx: TransactionRow, m: ExchangeMap, now: int)
    requires tx.status == Quote
    ensures var s2 := OrderStep(db, user, tx, m.orders);
            ExchangeSteps(db, user, tx, m, now) == if s2.outcome.Threw? then s2 else CloseStep(s2.db, user, tx, m.closes, None)
  {
  }

  /**
   * The worker hands the close trigger no quotes, so a successful close of a Go Wallet
   * transaction fails on the missing quote once its status is already written as complete,
   * and no wallet row is written.
   */
  lemma WalletCloseThrows(db: DbState, user: UserRow, tx: TransactionRow, m: ExchangeMap, now: int)
    requires tx.status == Order && IsWallet(tx.txType)
    requires |m.closes| > 0 && m.closes[0].success != Some(false)
    requires FindTransaction(db, tx.id) == Some(tx)
    ensures var r := ExchangeSteps(db, user, tx, m, now);
            r.outcome == Threw(UndefinedRead)
            && FindTransaction(r.db, tx.id) == Some(tx.(status := Complete))
            && r.db.wallet == db.wallet
  {
    var s3 := StatusUpdateStep(db, user, tx, m.statusUpdates);
    assert s3.db.transactions == db.transactions && s3.db.wallet == db.wallet;
    assert FindTransaction(s3.db, tx.id) == Some(tx);
    assert ExchangeSteps(db, user, tx, m, now) == CloseStep(s3.db, user, tx, m.closes, None);
    TriggerLemmas.CloseStepCloses(s3.db, user, tx, m.closes, None, tx);
  }
}
