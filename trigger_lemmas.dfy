/** What the exchange triggers guarantee, stated over their specifications. */
module TriggerLemmas {
  import opened Wrappers
  import opened Schema
  import opened Messages
  import opened Sms
  import opened Db
  import opened Triggers
  import Seqs

  lemma GrowsBySend(db: DbState, user: UserRow, message: SmsBody)
    ensures Grows(db, Send(db, user, message)) && SentOnlyTo(db, Send(db, user, message), user.phoneNumber)
  {
  }

  /** A fired quote trigger stores the FIRST quote of the list, without a fee, and sends one quote SMS. */
  lemma QuoteStepFires(db: DbState, user: UserRow, tx: TransactionRow, quotes: seq<QuoteMsg>, now: int, stored: TransactionRow)
    requires |quotes| > 0 && tx.status == Pending
    requires FindQuote(db, quotes[0].meta.id).None?
    requires FindTransaction(db, tx.id) == Some(stored)
    ensures var r := QuoteStep(db, user, tx, quotes, now);
            var row := StoredQuote(user, tx, quotes[0], now);
            r.outcome == Done
            && r.db.quotes == db.quotes + [row] && row.fee.None?
            && r.db.outbox == db.outbox + [Sms(user.phoneNumber, QuoteBody(tx.id, row, ShownBalance(db, user, stored)))]
            && FindTransaction(r.db, tx.id) == Some(stored.(status := if quotes[0].data.expiresAt < now then Cancelled else Quote))
            && r.db.credits == db.credits
  {
    var row := StoredQuote(user, tx, quotes[0], now);
    var db0 := db.(quotes := db.quotes + [row]);
    QuoteAfterInsert(db, row);
    assert FindTransaction(db0, tx.id) == Some(stored);
    var db1 := WithStatus(db0, tx.id, Quote);
    FindTransactionAfterStatus(db0, tx.id, Quote, tx.id);
    assert FindQuote(db1, row.id) == Some(row);
    var db2 := Send(db1, user, QuoteBody(tx.id, row, ShownBalance(db, user, stored)));
    assert FindTransaction(db2, tx.id) == Some(stored.(status := Quote));
    FindTransactionAfterStatus(db2, tx.id, Cancelled, tx.id);
  }

  /** A Regular transaction without credit is cancelled with one explanatory SMS and is not charged. */
  lemma OrderStepInsufficient(db: DbState, user: UserRow, tx: TransactionRow, orders: seq<OrderMsg>, stored: TransactionRow)
    requires |orders| > 0 && tx.status == Quote && tx.txType == Regular && Balance(db, user.id) < 1
    requires FindTransaction(db, tx.id) == Some(stored)
    ensures var r := OrderStep(db, user, tx, orders);
            r.outcome == Done && r.db.credits == db.credits
            && r.db.outbox == db.outbox + [Sms(user.phoneNumber, CloseBody(tx.id, false, Some(InsufficientCredit)))]
            && FindTransaction(r.db, tx.id) == Some(stored.(status := Cancelled))
  {
    FindTransactionAfterStatus(db, tx.id, Cancelled, tx.id);
  }

  /**
   * Otherwise the order is placed: a Regular transaction is charged exactly one credit,
   * and the order SMS carries the latest quote and the balance after the charge.
   */
  lemma OrderStepPlaces(db: DbState, user: UserRow, tx: TransactionRow, orders: seq<OrderMsg>, stored: TransactionRow)
    requires |orders| > 0 && tx.status == Quote && !(Balance(db, user.id) < 1 && tx.txType == Regular)
    requires FindTransaction(db, tx.id) == Some(stored)
    ensures var r := OrderStep(db, user, tx, orders);
            r.db.credits == db.credits + (if tx.txType == Regular then [CreditEntry(user.id, -1, Some("Order placed: " + tx.id))] else [])
            && Balance(r.db, user.id) == Balance(db, user.id) - (if tx.txType == Regular then 1 else 0)
            && FindTransaction(r.db, tx.id) == Some(stored.(status := Order))
            && (r.outcome == Done <==> LatestQuote(db, tx.id).Some?)
            && (LatestQuote(db, tx.id).Some? ==>
                  r.db.outbox == db.outbox
                    + [Sms(user.phoneNumber, OrderBody(tx.id, LatestQuote(db, tx.id).value, ShownBalance(r.db, user, stored)))])
            && (LatestQuote(db, tx.id).None? ==> r.db.outbox == db.outbox)
  {
    var db1 := WithStatus(db, tx.id, Order);
    FindTransactionAfterStatus(db, tx.id, Order, tx.id);
    if tx.txType == Regular {
      CreditBalanceAppend(db1.credits, CreditEntry(user.id, -1, Some("Order placed: " + tx.id)), user.id);
    }
    var db2 := OrderStep(db, user, tx, orders).db;
    assert db2.quotes == db.quotes;
    assert LatestQuote(db2, tx.id) == LatestQuote(db, tx.id);
  }

  /**
   * A credit is charged at most once per transaction: once the order trigger has fired,
   * the order trigger of any later pass, on the reloaded snapshot, does nothing.
   */
  lemma OrderStepAtMostOnce(db: DbState, user: UserRow, tx: TransactionRow, orders: seq<OrderMsg>,
                            reloaded: TransactionRow, laterOrders: seq<OrderMsg>)
    requires |orders| > 0 && tx.status == Quote
    requires FindTransaction(OrderStep(db, user, tx, orders).db, tx.id) == Some(reloaded)
    ensures var db1 := OrderStep(db, user, tx, orders).db;
            reloaded.status != Quote && OrderStep(db1, user, reloaded, laterOrders) == Step(db1, Done)
  {
    var db1 := OrderStep(db, user, tx, orders).db;
    var firstStatus := if Balance(db, user.id) < 1 && tx.txType == Regular then Cancelled else Order;
    FindTransactionAfterStatus(db, tx.id, firstStatus, tx.id);
    assert FindTransaction(db1, tx.id) == FindTransaction(WithStatus(db, tx.id, firstStatus), tx.id);
  }

  /** The ids a notification table already holds. */
  function KnownIds(ns: seq<NotificationRow>): set<string>
  {
    set n | n in ns :: n.id
  }

  /**
   * The number of leading updates the status-update loop records: it stops at the first
   * update whose id is already notified, or repeats an id recorded earlier in the same run.
   */
  function FreshRun(known: set<string>, updates: seq<OrderStatusMsg>): (k: nat)
    ensures k <= |updates|
    decreases |updates|
  {
    if |updates| == 0 || updates[0].meta.id in known then 0
    else 1 + FreshRun(known + {updates[0].meta.id}, updates[1..])
  }

  function UpdateRows(user: UserRow, tx: TransactionRow, updates: seq<OrderStatusMsg>): (rows: seq<NotificationRow>)
    ensures |rows| == |updates|
  {
    seq(|updates|, i requires 0 <= i < |updates| => StatusNotification(user, tx, updates[i]))
  }

  function UpdateTexts(user: UserRow, tx: TransactionRow, updates: seq<OrderStatusMsg>): (texts: seq<Sms>)
    ensures |texts| == |updates|
  {
    seq(|updates|, i requires 0 <= i < |updates| => Sms(user.phoneNumber, StatusUpdateBody(tx.id, updates[i].orderStatus)))
  }

  lemma FoundIffKnown(db: DbState, id: string)
    ensures FindNotification(db, id).Some? <==> id in KnownIds(db.notifications)
  {
    if id in KnownIds(db.notifications) {
      var n :| n in db.notifications && n.id == id;
    }
  }

  /**
   * The status-update loop records exactly the fresh leading run of the updates: one
   * notification row and one SMS per update, in the order given.
   */
  lemma {:induction false} ApplyUpdatesShape(db: DbState, user: UserRow, tx: TransactionRow, updates: seq<OrderStatusMsg>)
    ensures var k := FreshRun(KnownIds(db.notifications), updates);
            var r := ApplyUpdates(db, user, tx, updates);
            r.notifications == db.notifications + UpdateRows(user, tx, updates[..k])
            && r.outbox == db.outbox + UpdateTexts(user, tx, updates[..k])
    decreases |updates|
  {
    var k := FreshRun(KnownIds(db.notifications), updates);
    if |updates| > 0 {
      FoundIffKnown(db, updates[0].meta.id);
    }
    if k == 0 {
      assert updates[..k] == [];
      assert db.notifications + UpdateRows(user, tx, []) == db.notifications;
      assert db.outbox + UpdateTexts(user, tx, []) == db.outbox;
    } else {
      var db1 := RecordUpdate(db, user, tx, updates[0]);
      ApplyUpdatesShape(db1, user, tx, updates[1..]);
      ShapeStep(db, user, tx, updates, k);
    }
  }

  lemma RunCons(user: UserRow, tx: TransactionRow, updates: seq<OrderStatusMsg>, k: nat)
    requires 0 < k <= |updates|
    ensures UpdateRows(user, tx, updates[..k]) == [StatusNotification(user, tx, updates[0])] + UpdateRows(user, tx, updates[1..][..k - 1])
    ensures UpdateTexts(user, tx, updates[..k])
         == [Sms(user.phoneNumber, StatusUpdateBody(tx.id, updates[0].orderStatus))] + UpdateTexts(user, tx, updates[1..][..k - 1])
  {
    assert updates[..k] == [updates[0]] + updates[1..][..k - 1];
  }

  lemma ShapeStep(db: DbState, user: UserRow, tx: TransactionRow, updates: seq<OrderStatusMsg>, k: nat)
    requires 0 < k == FreshRun(KnownIds(db.notifications), updates)
    requires FindNotification(db, updates[0].meta.id).None?
    requires var db1 := RecordUpdate(db, user, tx, updates[0]);
             var k1 := FreshRun(KnownIds(db1.notifications), updates[1..]);
             var r := ApplyUpdates(db1, user, tx, updates[1..]);
             r.notifications == db1.notifications + UpdateRows(user, tx, updates[1..][..k1])
             && r.outbox == db1.outbox + UpdateTexts(user, tx, updates[1..][..k1])
    ensures var r := ApplyUpdates(db, user, tx, updates);
            r.notifications == db.notifications + UpdateRows(user, tx, updates[..k])
            && r.outbox == db.outbox + UpdateTexts(user, tx, updates[..k])
  {
    var db1 := RecordUpdate(db, user, tx, updates[0]);
    var k1 := FreshRun(KnownIds(db1.notifications), updates[1..]);
    FreshRunStep(db, user, tx, updates, k);
    RecordedRun(db, user, tx, updates, k, k1);
  }

  lemma FreshRunStep(db: DbState, user: UserRow, tx: TransactionRow, updates: seq<OrderStatusMsg>, k: nat)
    requires 0 < k == FreshRun(KnownIds(db.notifications), updates)
    ensures var db1 := RecordUpdate(db, user, tx, updates[0]);
            k == 1 + FreshRun(KnownIds(db1.notifications), updates[1..])
  {
    var db1 := RecordUpdate(db, user, tx, updates[0]);
    var row := StatusNotification(user, tx, updates[0]);
    assert db1.notifications == db.notifications + [row];
    KnownIdsAppend(db.notifications, row);
  }

  lemma RecordedRun(db: DbState, user: UserRow, tx: TransactionRow, updates: seq<OrderStatusMsg>, k: nat, k1: nat)
    requires 0 < k <= |updates| && k == 1 + k1
    ensures var db1 := RecordUpdate(db, user, tx, updates[0]);
            db1.notifications + UpdateRows(user, tx, updates[1..][..k1]) == db.notifications + UpdateRows(user, tx, updates[..k])
            && db1.outbox + UpdateTexts(user, tx, updates[1..][..k1]) == db.outbox + UpdateTexts(user, tx, updates[..k])
  {
    var u := updates[0];
    var db1 := RecordUpdate(db, user, tx, u);
    var row := StatusNotification(user, tx, u);
    var sms := Sms(user.phoneNumber, StatusUpdateBody(tx.id, u.orderStatus));
    assert db1.notifications == db.notifications + [row] && db1.outbox == db.outbox + [sms];
    RunCons(user, tx, updates, k);
    var rows := UpdateRows(user, tx, updates[1..][..k1]);
    var texts := UpdateTexts(user, tx, updates[1..][..k1]);
    assert db1.notifications + rows == db.notifications + ([row] + rows);
    assert db1.outbox + texts == db.outbox + ([sms] + texts);
  }

  lemma KnownIdsAppend(ns: seq<NotificationRow>, n: NotificationRow)
    ensures KnownIds(ns + [n]) == KnownIds(ns) + {n.id}
  {
    assert forall m :: m in ns + [n] <==> m in ns || m == n;
  }

  /**
   * Status updates are notified once: running the trigger a second time on the same
   * updates, on the state the first run left, changes nothing.
   */
  lemma StatusUpdateStepIdempotent(db: DbState, user: UserRow, tx: TransactionRow, updates: seq<OrderStatusMsg>)
    ensures var db1 := StatusUpdateStep(db, user, tx, updates).db;
            StatusUpdateStep(db1, user, tx, updates) == Step(db1, Done)
  {
    if |updates| > 0 && tx.status == Order {
      var sorted := Seqs.SortBy(updates, StatusCreatedAt);
      var db1 := ApplyUpdates(db, user, tx, sorted);
      var id := sorted[0].meta.id;
      ApplyUpdatesShape(db, user, tx, sorted);
      FoundIffKnown(db, id);
      FoundIffKnown(db1, id);
      var k := FreshRun(KnownIds(db.notifications), sorted);
      if id !in KnownIds(db.notifications) {
        var row := UpdateRows(user, tx, sorted[..k])[0];
        assert row in db1.notifications;
      } else {
        assert db1.notifications == db.notifications + [];
      }
      assert id in KnownIds(db1.notifications);
    }
  }

  /**
   * A successful close completes the transaction, an explicit `success === false` cancels it;
   * the close SMS is sent, followed by the rating prompt on completion. A successful close of a
   * Go Wallet transaction needs a quote: it writes the wallet row, or throws without one.
   */
  lemma CloseStepCloses(db: DbState, user: UserRow, tx: TransactionRow, closes: seq<CloseMsg>,
                        quotes: Option<seq<QuoteMsg>>, stored: TransactionRow)
    requires |closes| > 0 && (tx.status == Order || tx.status == Quote)
    requires FindTransaction(db, tx.id) == Some(stored)
    ensures var r := CloseStep(db, user, tx, closes, quotes);
            var cancelled := closes[0].success == Some(false);
            var credited := !cancelled && IsWallet(stored.txType);
            FindTransaction(r.db, tx.id) == Some(stored.(status := if cancelled then Cancelled else Complete))
            && (r.outcome == Done <==> !credited || EarliestQuote(quotes).Some?)
            && (r.outcome == Done ==>
                  r.db.wallet == db.wallet + (if credited then [WalletCredit(user, tx, EarliestQuote(quotes).value)] else [])
                  && r.db.outbox == db.outbox
                     + [Sms(user.phoneNumber, CloseBody(tx.id, !cancelled, WalletReason(cancelled, stored.txType)))]
                     + (if cancelled then [] else [Sms(user.phoneNumber, RatePromptBody(tx.id))]))
            && (r.outcome.Threw? ==> r.db.wallet == db.wallet && r.db.outbox == db.outbox)
  {
    var status := CloseStatus(closes[0]);
    FindTransactionAfterStatus(db, tx.id, status, tx.id);
    CloseReloadedCloses(WithStatus(db, tx.id, status), user, tx, closes[0], EarliestQuote(quotes), stored.(status := status));
  }

  /** The close once its status is written, for a transaction whose status it changes. */
  lemma CloseReloadedCloses(db: DbState, user: UserRow, tx: TransactionRow, close: CloseMsg, quote: Option<QuoteMsg>, updated: TransactionRow)
    requires FindTransaction(db, tx.id) == Some(updated) && tx.status != updated.status
    requires updated.status == (if close.success == Some(false) then Cancelled else Complete)
    ensures var r := CloseReloaded(db, user, tx, close, quote);
            var cancelled := close.success == Some(false);
            var credited := !cancelled && IsWallet(updated.txType);
            r.db.transactions == db.transactions
            && (r.outcome == Done <==> !credited || quote.Some?)
            && (r.outcome == Done ==>
                  r.db.wallet == db.wallet + (if credited then [WalletCredit(user, tx, quote.value)] else [])
                  && r.db.outbox == db.outbox
                     + [Sms(user.phoneNumber, CloseBody(tx.id, !cancelled, WalletReason(cancelled, updated.txType)))]
                     + (if cancelled then [] else [Sms(user.phoneNumber, RatePromptBody(tx.id))]))
            && (r.outcome.Threw? ==> r.db.wallet == db.wallet && r.db.outbox == db.outbox)
  {
  }

  /** Every trigger keeps the database append-only and writes SMS only to its user. */
  lemma TriggersGrow(db: DbState, user: UserRow, tx: TransactionRow, quotes: seq<QuoteMsg>, orders: seq<OrderMsg>,
                     updates: seq<OrderStatusMsg>, closes: seq<CloseMsg>, closeQuotes: Option<seq<QuoteMsg>>, now: int)
    ensures var r := QuoteStep(db, user, tx, quotes, now).db; Grows(db, r) && SentOnlyTo(db, r, user.phoneNumber)
    ensures var r := OrderStep(db, user, tx, orders).db; Grows(db, r) && SentOnlyTo(db, r, user.phoneNumber)
    ensures var r := StatusUpdateStep(db, user, tx, updates).db; Grows(db, r) && SentOnlyTo(db, r, user.phoneNumber)
    ensures var r := CloseStep(db, user, tx, closes, closeQuotes).db; Grows(db, r) && SentOnlyTo(db, r, user.phoneNumber)
  {
    QuoteStepGrows(db, user, tx, quotes, now);
    OrderStepGrows(db, user, tx, orders);
    CloseStepGrows(db, user, tx, closes, closeQuotes);
  }

  lemma QuoteReloadedGrows(db: DbState, user: UserRow, tx: TransactionRow, quote: QuoteMsg, now: int)
    ensures var r := QuoteReloaded(db, user, tx, quote, now).db; Grows(db, r) && SentOnlyTo(db, r, user.phoneNumber)
  {
    var updated := FindTransaction(db, tx.id);
    var written := FindQuote(db, quote.meta.id);
    if updated.Some? && written.Some? {
      var text := QuoteBody(updated.value.id, written.value, ShownBalance(db, user, updated.value));
      var db1 := Send(db, user, text);
      GrowsBySend(db, user, text);
      GrowsByStatus(db1, tx.id, Cancelled);
      GrowsTrans(db, db1, QuoteReloaded(db, user, tx, quote, now).db, user.phoneNumber);
    }
  }

  lemma QuoteStepGrows(db: DbState, user: UserRow, tx: TransactionRow, quotes: seq<QuoteMsg>, now: int)
    ensures var r := QuoteStep(db, user, tx, quotes, now).db; Grows(db, r) && SentOnlyTo(db, r, user.phoneNumber)
  {
    if |quotes| > 0 && tx.status == Pending {
      var row := StoredQuote(user, tx, quotes[0], now);
      if FindQuote(db, row.id).None? {
        var db0 := db.(quotes := db.quotes + [row]);
        var db1 := WithStatus(db0, tx.id, Quote);
        GrowsByStatus(db0, tx.id, Quote);
        GrowsTrans(db, db0, db1, user.phoneNumber);
        QuoteReloadedGrows(db1, user, tx, quotes[0], now);
        GrowsTrans(db, db1, QuoteReloaded(db1, user, tx, quotes[0], now).db, user.phoneNumber);
      }
    }
  }

  lemma OrderReloadedGrows(db: DbState, user: UserRow, tx: TransactionRow)
    ensures var r := OrderReloaded(db, user, tx).db; Grows(db, r) && SentOnlyTo(db, r, user.phoneNumber)
  {
    var updated := FindTransaction(db, tx.id);
    var latest := LatestQuote(db, tx.id);
    if updated.Some? && tx.status != updated.value.status && latest.Some? {
      GrowsBySend(db, user, OrderBody(updated.value.id, latest.value, ShownBalance(db, user, updated.value)));
    }
  }

  lemma OrderStepGrows(db: DbState, user: UserRow, tx: TransactionRow, orders: seq<OrderMsg>)
    ensures var r := OrderStep(db, user, tx, orders).db; Grows(db, r) && SentOnlyTo(db, r, user.phoneNumber)
  {
    if |orders| > 0 && tx.status == Quote {
      if Balance(db, user.id) < 1 && tx.txType == Regular {
        var db1 := WithStatus(db, tx.id, Cancelled);
        GrowsByStatus(db, tx.id, Cancelled);
        GrowsBySend(db1, user, CloseBody(tx.id, false, Some(InsufficientCredit)));
        GrowsTrans(db, db1, Send(db1, user, CloseBody(tx.id, false, Some(InsufficientCredit))), user.phoneNumber);
      } else {
        var db1 := WithStatus(db, tx.id, Order);
        GrowsByStatus(db, tx.id, Order);
        var db2 := Charge(db1, user, tx);
        GrowsTrans(db, db1, db2, user.phoneNumber);
        OrderReloadedGrows(db2, user, tx);
        GrowsTrans(db, db2, OrderReloaded(db2, user, tx).db, user.phoneNumber);
      }
    }
  }

  lemma CloseNotifyGrows(db: DbState, user: UserRow, tx: TransactionRow, updated: TransactionRow, isCancelled: bool)
    ensures var r := CloseNotify(db, user, tx, updated, isCancelled); Grows(db, r) && SentOnlyTo(db, r, user.phoneNumber)
  {
    if tx.status != updated.status {
      var text := CloseBody(updated.id, !isCancelled, WalletReason(isCancelled, updated.txType));
      var db1 := Send(db, user, text);
      GrowsBySend(db, user, text);
      GrowsBySend(db1, user, RatePromptBody(updated.id));
      GrowsTrans(db, db1, CloseNotify(db, user, tx, updated, isCancelled), user.phoneNumber);
    }
  }

  lemma CloseReloadedGrows(db: DbState, user: UserRow, tx: TransactionRow, close: CloseMsg, quote: Option<QuoteMsg>)
    ensures var r := CloseReloaded(db, user, tx, close, quote).db; Grows(db, r) && SentOnlyTo(db, r, user.phoneNumber)
  {
    match FindTransaction(db, tx.id)
    case None =>
    case Some(updated) =>
      var isCancelled := close.success == Some(false);
      var credited := !isCancelled && IsWallet(updated.txType);
      if !(credited && quote.None?) {
        var db1 := if credited then db.(wallet := db.wallet + [WalletCredit(user, tx, quote.value)]) else db;
        CloseNotifyGrows(db1, user, tx, updated, isCancelled);
        GrowsTrans(db, db1, CloseNotify(db1, user, tx, updated, isCancelled), user.phoneNumber);
      }
  }

  lemma CloseStepGrows(db: DbState, user: UserRow, tx: TransactionRow, closes: seq<CloseMsg>, quotes: Option<seq<QuoteMsg>>)
    ensures var r := CloseStep(db, user, tx, closes, quotes).db; Grows(db, r) && SentOnlyTo(db, r, user.phoneNumber)
  {
    if |closes| > 0 && (tx.status == Order || tx.status == Quote) {
      var db1 := WithStatus(db, tx.id, CloseStatus(closes[0]));
      GrowsByStatus(db, tx.id, CloseStatus(closes[0]));
      CloseReloadedGrows(db1, user, tx, closes[0], EarliestQuote(quotes));
      GrowsTrans(db, db1, CloseReloaded(db1, user, tx, closes[0], EarliestQuote(quotes)).db, user.phoneNumber);
    }
  }
}
