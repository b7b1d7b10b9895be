/**
 * The per-transaction state machine driven by the counterparty's messages: the quote,
 * order, order-status and close triggers. Each trigger is guarded by the status of the
 * transaction snapshot it is handed, which is not reloaded between triggers.
 *
 * Each trigger is specified by a function from the database before to the database after
 * and an outcome (`Threw` where the code throws: a duplicate primary key or a property read
 * of an undefined row); the methods perform the same steps on a `Store`.
 */
module Triggers {
  import opened Wrappers
  import opened Schema
  import opened Messages
  import opened Sms
  import opened Db
  import Seqs

  datatype Outcome = Done | Threw(error: string)

  datatype Step = Step(db: DbState, outcome: Outcome)

  const DuplicateQuote := "UNIQUE constraint failed: quotes.id"
  const UndefinedRead := "TypeError: Cannot read properties of undefined"
  const InsufficientCredit := "Insufficient Go Credit balance"

  /** The balance shown in a message: withheld for Go Wallet transactions. */
  function ShownBalance(db: DbState, user: UserRow, tx: TransactionRow): (b: Option<int>)
    ensures b.Some? <==> tx.txType == Regular
  {
    if tx.txType == Regular then Some(Balance(db, user.id)) else None
  }

  /** `processQuote`: applies the first quote of the list to a pending transaction. */
  function QuoteStep(db: DbState, user: UserRow, tx: TransactionRow, quotes: seq<QuoteMsg>, now: int): (r: Step)
    ensures |quotes| == 0 || tx.status != Pending ==> r == Step(db, Done)
    ensures r.db.credits == db.credits && r.db.wallet == db.wallet && r.db.notifications == db.notifications
  {
    if |quotes| == 0 || tx.status != Pending then Step(db, Done)
    else
      var quote := quotes[0];
      var row := StoredQuote(user, tx, quote, now);
      if FindQuote(db, row.id).Some? then Step(db, Threw(DuplicateQuote))
      else QuoteReloaded(WithStatus(db.(quotes := db.quotes + [row]), tx.id, Quote), user, tx, quote, now)
  }

  /** The rest of `processQuote`, once the quote is stored and the status is 'quote': notify, then expire. */
  function QuoteReloaded(db: DbState, user: UserRow, tx: TransactionRow, quote: QuoteMsg, now: int): (r: Step)
    ensures r.db.credits == db.credits && r.db.wallet == db.wallet && r.db.notifications == db.notifications
  {
    var updated := FindTransaction(db, tx.id);
    var written := FindQuote(db, quote.meta.id);
    if updated.None? || written.None? then Step(db, Threw(UndefinedRead))
    else
      var db1 := Send(db, user, QuoteBody(updated.value.id, written.value, ShownBalance(db, user, updated.value)));
      var db2 := if quote.data.expiresAt < now then WithStatus(db1, tx.id, Cancelled) else db1;
      Step(db2, Done)
  }

  /** `processOrder`: places the order of a transaction holding a quote, charging one credit. */
  function OrderStep(db: DbState, user: UserRow, tx: TransactionRow, orders: seq<OrderMsg>): (r: Step)
    ensures |orders| == 0 || tx.status != Quote ==> r == Step(db, Done)
    ensures r.db.quotes == db.quotes && r.db.wallet == db.wallet && r.db.notifications == db.notifications
  {
    if |orders| == 0 || tx.status != Quote then Step(db, Done)
    else if Balance(db, user.id) < 1 && tx.txType == Regular then
      Step(Send(WithStatus(db, tx.id, Cancelled), user, CloseBody(tx.id, false, Some(InsufficientCredit))), Done)
    else OrderReloaded(Charge(WithStatus(db, tx.id, Order), user, tx), user, tx)
  }

  /** The credit ledger entry of a placed order: one credit, for Regular transactions only. */
  function Charge(db: DbState, user: UserRow, tx: TransactionRow): (r: DbState)
    ensures r == db.(credits := r.credits)
    ensures r.credits == db.credits + (if tx.txType == Regular then [CreditEntry(user.id, -1, Some("Order placed: " + tx.id))] else [])
  {
    if tx.txType == Regular then db.(credits := db.credits + [CreditEntry(user.id, -1, Some("Order placed: " + tx.id))])
    else db
  }

  /** The rest of `processOrder` once the status is 'order': reload, then notify if the status changed. */
  function OrderReloaded(db: DbState, user: UserRow, tx: TransactionRow): (r: Step)
    ensures r.db == db.(outbox := r.db.outbox)
  {
    match FindTransaction(db, tx.id)
    case None => Step(db, Threw(UndefinedRead))
    case Some(updated) =>
      if tx.status == updated.status then Step(db, Done)
      else
        match LatestQuote(db, tx.id)
        case None => Step(db, Threw(UndefinedRead))
        case Some(latest) =>
          Step(Send(db, user, OrderBody(updated.id, latest, ShownBalance(db, user, updated))), Done)
  }

  /**
   * The `data` column of a status-update notification: the update's data serialised as JSON.
   * The order status is written as it is, without JSON string escaping.
   */
  function StatusData(orderStatus: string): string
  {
    "{\"orderStatus\":\"" + orderStatus + "\"}"
  }

  function StatusNotification(user: UserRow, tx: TransactionRow, update: OrderStatusMsg): (n: NotificationRow)
    ensures n.id == update.meta.id && n.kind == StatusUpdateNotice && n.transactionId == tx.id
  {
    NotificationRow(update.meta.id, user.id, tx.id, StatusUpdateNotice, Some(StatusData(update.orderStatus)), update.meta.createdAt)
  }

  /** One iteration of the status-update loop for an update not yet notified: send, then record. */
  function RecordUpdate(db: DbState, user: UserRow, tx: TransactionRow, update: OrderStatusMsg): DbState
  {
    var db1 := Send(db, user, StatusUpdateBody(tx.id, update.orderStatus));
    db1.(notifications := db1.notifications + [StatusNotification(user, tx, update)])
  }

  /** The status-update loop: records updates in order and stops at the first one already notified. */
  function ApplyUpdates(db: DbState, user: UserRow, tx: TransactionRow, updates: seq<OrderStatusMsg>): (r: DbState)
    ensures r == db.(notifications := r.notifications, outbox := r.outbox)
    ensures db.notifications <= r.notifications && db.outbox <= r.outbox && SentOnlyTo(db, r, user.phoneNumber)
    ensures |r.outbox| - |db.outbox| == |r.notifications| - |db.notifications| <= |updates|
    decreases |updates|
  {
    if |updates| == 0 || FindNotification(db, updates[0].meta.id).Some? then db
    else ApplyUpdates(RecordUpdate(db, user, tx, updates[0]), user, tx, updates[1..])
  }

  /** `processOrderStatusUpdate`: the updates of an ordered transaction, oldest first. */
  function StatusUpdateStep(db: DbState, user: UserRow, tx: TransactionRow, updates: seq<OrderStatusMsg>): (r: Step)
    ensures |updates| == 0 || tx.status != Order ==> r.db == db
    ensures r.outcome == Done
    ensures Grows(db, r.db) && SentOnlyTo(db, r.db, user.phoneNumber)
  {
    if |updates| == 0 || tx.status != Order then Step(db, Done)
    else Step(ApplyUpdates(db, user, tx, Seqs.SortBy(updates, StatusCreatedAt)), Done)
  }

  /** The earliest-created quote, when quotes are given at all. */
  function EarliestQuote(quotes: Option<seq<QuoteMsg>>): (r: Option<QuoteMsg>)
    ensures r.None? <==> quotes.None? || |quotes.value| == 0
    ensures r.Some? ==> r.value == Seqs.Earliest(quotes.value, QuoteCreatedAt)
  {
    match quotes
    case None => None
    case Some(qs) =>
      if |qs| == 0 then None
      else
        Seqs.SortByFirstIsEarliest(qs, QuoteCreatedAt);
        Some(Seqs.SortBy(qs, QuoteCreatedAt)[0])
  }

  predicate IsWallet(t: TransactionType) { t == WalletIn || t == WalletOut }

  /** The Go Wallet row a successful close of a wallet transaction writes. */
  function WalletCredit(user: UserRow, tx: TransactionRow, quote: QuoteMsg): (e: WalletEntry)
    ensures e.sourceTransactionId == tx.id && e.userId == user.id
    ensures tx.txType == WalletIn ==> e.currencyCode == quote.data.payoutCurrency && e.amount == quote.data.payoutAmount
    ensures tx.txType != WalletIn ==> e.currencyCode == quote.data.payinCurrency && e.amount == quote.data.payinAmount
  {
    WalletEntry(
      user.id, tx.id, tx.pfiDid,
      if tx.txType == WalletIn then quote.data.payoutCurrency else quote.data.payinCurrency,
      if tx.txType == WalletIn then quote.data.payoutAmount else quote.data.payinAmount,
      Some("Order completed: " + tx.id))
  }

  /** The reason shown in the close message of a successful Go Wallet transaction. */
  function WalletReason(isCancelled: bool, t: TransactionType): (reason: Option<string>)
    ensures reason.Some? <==> !isCancelled && t != Regular
  {
    if !isCancelled && t != Regular then Some((if t == WalletIn then "Credited" else "Debited") + " your Go Wallet")
    else None
  }

  function CloseStatus(close: CloseMsg): TransactionStatus
  {
    if close.success == Some(false) then Cancelled else Complete
  }

  /**
   * `processClose`: closes a transaction holding a quote or an order. Only an explicit
   * `success === false` cancels; the wallet entry reads the earliest of `quotes`.
   */
  function CloseStep(db: DbState, user: UserRow, tx: TransactionRow, closes: seq<CloseMsg>, quotes: Option<seq<QuoteMsg>>): (r: Step)
    ensures |closes| == 0 || (tx.status != Order && tx.status != Quote) ==> r == Step(db, Done)
    ensures r.db.quotes == db.quotes && r.db.credits == db.credits && r.db.notifications == db.notifications
  {
    if |closes| == 0 || (tx.status != Order && tx.status != Quote) then Step(db, Done)
    else CloseReloaded(WithStatus(db, tx.id, CloseStatus(closes[0])), user, tx, closes[0], EarliestQuote(quotes))
  }

  /** The rest of `processClose` once the status is written: reload, credit the wallet, notify. */
  function CloseReloaded(db: DbState, user: UserRow, tx: TransactionRow, close: CloseMsg, quote: Option<QuoteMsg>): (r: Step)
    ensures r.db == db.(wallet := r.db.wallet, outbox := r.db.outbox)
  {
    match FindTransaction(db, tx.id)
    case None => Step(db, Threw(UndefinedRead))
    case Some(updated) =>
      var isCancelled := close.success == Some(false);
      var credited := !isCancelled && IsWallet(updated.txType);
      if credited && quote.None? then Step(db, Threw(UndefinedRead))
      else
        var db1 := if credited then db.(wallet := db.wallet + [WalletCredit(user, tx, quote.value)]) else db;
        Step(CloseNotify(db1, user, tx, updated, isCancelled), Done)
  }

  /** The close SMS, and the rating prompt after a completion, when the status changed. */
  function CloseNotify(db: DbState, user: UserRow, tx: TransactionRow, updated: TransactionRow, isCancelled: bool): (r: DbState)
    ensures r == db.(outbox := r.outbox)
  {
    if tx.status == updated.status then db
    else
      var db1 := Send(db, user, CloseBody(updated.id, !isCancelled, WalletReason(isCancelled, updated.txType)));
      if updated.status == Complete then Send(db1, user, RatePromptBody(updated.id)) else db1
  }

  /** `processQuote` on the store. */
  method ProcessQuote(store: Store, user: UserRow, tx: TransactionRow, quotes: seq<QuoteMsg>, now: int) returns (outcome: Outcome)
    modifies store
    ensures Step(store.Model(), outcome) == QuoteStep(old(store.Model()), user, tx, quotes, now)
  {
    if |quotes| == 0 || tx.status != Pending {
      return Done;
    }
    var quote := quotes[0];
    var inserted := store.InsertQuote(StoredQuote(user, tx, quote, now));
    if !inserted {
      return Threw(DuplicateQuote);
    }
    store.UpdateTransactionStatus(tx.id, Quote);
    outcome := NotifyQuote(store, user, tx, quote, now);
  }

  /** The part of `processQuote` after the quote is stored: reload, notify, expire. */
  method NotifyQuote(store: Store, user: UserRow, tx: TransactionRow, quote: QuoteMsg, now: int) returns (outcome: Outcome)
    modifies store
    ensures Step(store.Model(), outcome) == QuoteReloaded(old(store.Model()), user, tx, quote, now)
  {
    var updated := FindTransaction(store.Model(), tx.id);
    var written := FindQuote(store.Model(), quote.meta.id);
    if updated.None? || written.None? {
      return Threw(UndefinedRead);
    }
    var balance := ShownBalance(store.Model(), user, updated.value);
    store.Publish(user, QuoteBody(updated.value.id, written.value, balance));
    if quote.data.expiresAt < now {
      store.UpdateTransactionStatus(tx.id, Cancelled);
    }
    return Done;
  }

  /** `processOrder` on the store. */
  method ProcessOrder(store: Store, user: UserRow, tx: TransactionRow, orders: seq<OrderMsg>) returns (outcome: Outcome)
    modifies store
    ensures Step(store.Model(), outcome) == OrderStep(old(store.Model()), user, tx, orders)
  {
    if |orders| == 0 || tx.status != Quote {
      return Done;
    }
    var balance := Balance(store.Model(), user.id);
    if balance < 1 && tx.txType == Regular {
      store.UpdateTransactionStatus(tx.id, Cancelled);
      store.Publish(user, CloseBody(tx.id, false, Some(InsufficientCredit)));
      return Done;
    }
    store.UpdateTransactionStatus(tx.id, Order);
    if tx.txType == Regular {
      store.AddCreditEntry(user.id, -1, Some("Order placed: " + tx.id));
    }
    outcome := NotifyOrder(store, user, tx);
  }

  /** The part of `processOrder` after the charge: reload, then notify if the status changed. */
  method NotifyOrder(store: Store, user: UserRow, tx: TransactionRow) returns (outcome: Outcome)
    modifies store
    ensures Step(store.Model(), outcome) == OrderReloaded(old(store.Model()), user, tx)
  {
    var updated := FindTransaction(store.Model(), tx.id);
    var latest := LatestQuote(store.Model(), tx.id);
    if updated.None? {
      return Threw(UndefinedRead);
    }
    if tx.status != updated.value.status {
      if latest.None? {
        return Threw(UndefinedRead);
      }
      var newBalance := ShownBalance(store.Model(), user, updated.value);
      store.Publish(user, OrderBody(updated.value.id, latest.value, newBalance));
    }
    return Done;
  }

  /** `processOrderStatusUpdate` on the store: the loop returns at the first update already notified. */
  method ProcessOrderStatusUpdate(store: Store, user: UserRow, tx: TransactionRow, updates: seq<OrderStatusMsg>) returns (outcome: Outcome)
    modifies store
    ensures Step(store.Model(), outcome) == StatusUpdateStep(old(store.Model()), user, tx, updates)
  {
    outcome := Done;
    if |updates| == 0 || tx.status != Order {
      return;
    }
    var sorted := Seqs.SortBy(updates, StatusCreatedAt);
    var i := 0;
    while i < |sorted|
      invariant 0 <= i <= |sorted|
      invariant ApplyUpdates(old(store.Model()), user, tx, sorted) == ApplyUpdates(store.Model(), user, tx, sorted[i..])
    {
      var update := sorted[i];
      assert sorted[i..][0] == update && sorted[i..][1..] == sorted[i + 1..];
      var existing := FindNotification(store.Model(), update.meta.id);
      if existing.Some? {
        return;
      }
      store.Publish(user, StatusUpdateBody(tx.id, update.orderStatus));
      var inserted := store.InsertNotification(StatusNotification(user, tx, update));
      assert inserted;
      i := i + 1;
    }
  }

  /** `processClose` on the store; `quotes` is None where the caller passes no quotes. */
  method ProcessClose(store: Store, user: UserRow, tx: TransactionRow, closes: seq<CloseMsg>, quotes: Option<seq<QuoteMsg>>) returns (outcome: Outcome)
    modifies store
    ensures Step(store.Model(), outcome) == CloseStep(old(store.Model()), user, tx, closes, quotes)
  {
    if |closes| == 0 || (tx.status != Order && tx.status != Quote) {
      return Done;
    }
    var close := closes[0];
    var quote := EarliestQuote(quotes);
    store.UpdateTransactionStatus(tx.id, CloseStatus(close));
    outcome := NotifyClose(store, user, tx, close, quote);
  }

  /** The part of `processClose` after the status is written: reload, credit the wallet, notify. */
  method NotifyClose(store: Store, user: UserRow, tx: TransactionRow, close: CloseMsg, quote: Option<QuoteMsg>) returns (outcome: Outcome)
    modifies store
    ensures Step(store.Model(), outcome) == CloseReloaded(old(store.Model()), user, tx, close, quote)
  {
    var isCancelled := close.success == Some(false);
    var updated := FindTransaction(store.Model(), tx.id);
    if updated.None? {
      return Threw(UndefinedRead);
    }
    var credited := !isCancelled && IsWallet(updated.value.txType);
    if credited {
      if quote.None? {
        return Threw(UndefinedRead);
      }
      store.InsertWalletEntry(WalletCredit(user, tx, quote.value));
    }
    if tx.status != updated.value.status {
      store.Publish(user, CloseBody(updated.value.id, !isCancelled, WalletReason(isCancelled, updated.value.txType)));
      if updated.value.status == Complete {
        store.Publish(user, RatePromptBody(updated.value.id));
      }
    }
    return Done;
  }
}
