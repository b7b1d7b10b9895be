/**
 * The database of the service as in-memory tables, together with the SMS outbox the
 * notifications are appended to. `DbState` is the value the queries and the
 * specifications work on; `Store` is the mutable database the operations update.
 */
module Db {
  import opened Wrappers
  import opened Schema
  import opened Messages
  import Seqs
  import opened Sms

  datatype DbState = DbState(
    users: seq<UserRow>,
    transactions: seq<TransactionRow>,
    quotes: seq<QuoteRow>,
    notifications: seq<NotificationRow>,
    credits: seq<CreditEntry>,
    wallet: seq<WalletEntry>,
    ratings: seq<RatingRow>,
    outbox: seq<Sms>)

  /** Primary keys: no two rows of a keyed table share an id. */
  ghost predicate Keyed(db: DbState)
  {
    (forall i, j :: 0 <= i < j < |db.transactions| ==> db.transactions[i].id != db.transactions[j].id)
    && (forall i, j :: 0 <= i < j < |db.quotes| ==> db.quotes[i].id != db.quotes[j].id)
    && (forall i, j :: 0 <= i < j < |db.notifications| ==> db.notifications[i].id != db.notifications[j].id)
  }

  function TxIdIs(id: string): TransactionRow -> bool { (t: TransactionRow) => t.id == id }
  function QuoteIdIs(id: string): QuoteRow -> bool { (q: QuoteRow) => q.id == id }
  function NotificationIdIs(id: string): NotificationRow -> bool { (n: NotificationRow) => n.id == id }
  function QuoteOf(transactionId: string): QuoteRow -> bool { (q: QuoteRow) => q.transactionId == transactionId }
  function QuoteRowCreatedAt(q: QuoteRow): int { q.createdAt }
  function TxCreatedAt(t: TransactionRow): int { t.createdAt }
  function OwnedBy(userId: string): TransactionRow -> bool { (t: TransactionRow) => t.userId == userId }

  function FindUser(db: DbState, id: string): (r: Option<UserRow>)
    ensures r.Some? ==> r.value in db.users && r.value.id == id
    ensures r.None? <==> forall u :: u in db.users ==> u.id != id
  {
    Seqs.Find(db.users, (u: UserRow) => u.id == id)
  }

  function FindUserByPhone(db: DbState, phoneNumber: string): (r: Option<UserRow>)
    ensures r.Some? ==> r.value in db.users && r.value.phoneNumber == phoneNumber
    ensures r.None? <==> forall u :: u in db.users ==> u.phoneNumber != phoneNumber
  {
    Seqs.Find(db.users, (u: UserRow) => u.phoneNumber == phoneNumber)
  }

  /** `fetchTransaction`: the row with the id, or nothing. */
  function FindTransaction(db: DbState, id: string): (r: Option<TransactionRow>)
    ensures r.Some? ==> r.value in db.transactions && r.value.id == id
    ensures r.None? <==> forall t :: t in db.transactions ==> t.id != id
  {
    Seqs.Find(db.transactions, TxIdIs(id))
  }

  /** `fetchQuote`: the row with the id, or nothing. */
  function FindQuote(db: DbState, id: string): (r: Option<QuoteRow>)
    ensures r.Some? ==> r.value in db.quotes && r.value.id == id
    ensures r.None? <==> forall q :: q in db.quotes ==> q.id != id
  {
    Seqs.Find(db.quotes, QuoteIdIs(id))
  }

  /** `fetchLatestQuote`: the transaction's quote with the greatest creation time. */
  function LatestQuote(db: DbState, transactionId: string): (r: Option<QuoteRow>)
    ensures r.None? <==> forall q :: q in db.quotes ==> q.transactionId != transactionId
    ensures r.Some? ==> r.value in db.quotes && r.value.transactionId == transactionId
    ensures r.Some? ==> forall q :: q in db.quotes && q.transactionId == transactionId ==> q.createdAt <= r.value.createdAt
  {
    var own := Seqs.Filter(db.quotes, QuoteOf(transactionId));
    assert |own| == 0 <==> forall q :: q in db.quotes ==> q.transactionId != transactionId by {
      if |own| > 0 { assert own[0] in own; }
    }
    Seqs.Latest(own, QuoteRowCreatedAt)
  }

  /** `fetchNotification`: the row with the id, or nothing. */
  function FindNotification(db: DbState, id: string): (r: Option<NotificationRow>)
    ensures r.Some? ==> r.value in db.notifications && r.value.id == id
    ensures r.None? <==> forall n :: n in db.notifications ==> n.id != id
  {
    Seqs.Find(db.notifications, NotificationIdIs(id))
  }

  /** `getTransactionHistory`: the user's transactions. */
  function TransactionHistory(db: DbState, userId: string): (r: seq<TransactionRow>)
    ensures forall t :: t in r <==> t in db.transactions && t.userId == userId
  {
    Seqs.Filter(db.transactions, OwnedBy(userId))
  }

  /** The user's most recent transaction (`ORDER BY created_at DESC LIMIT 1`). */
  function LatestTransactionOf(db: DbState, userId: string): (r: Option<TransactionRow>)
    ensures r.None? <==> forall t :: t in db.transactions ==> t.userId != userId
    ensures r.Some? ==> r.value in db.transactions && r.value.userId == userId
    ensures r.Some? ==> forall t :: t in db.transactions && t.userId == userId ==> t.createdAt <= r.value.createdAt
  {
    var own := TransactionHistory(db, userId);
    assert |own| == 0 <==> forall t :: t in db.transactions ==> t.userId != userId by {
      if |own| > 0 { assert own[0] in own; }
    }
    Seqs.Latest(own, TxCreatedAt)
  }

  function Balance(db: DbState, userId: string): int
  {
    CreditBalance(db.credits, userId)
  }

  predicate HasRating(db: DbState, transactionId: string)
  {
    exists r :: r in db.ratings && r.transactionId == transactionId
  }

  /** `UPDATE transactions SET status WHERE id`: only the status of rows with that id changes. */
  function SetStatus(txs: seq<TransactionRow>, id: string, status: TransactionStatus): seq<TransactionRow>
  {
    seq(|txs|, i requires 0 <= i < |txs| => if txs[i].id == id then txs[i].(status := status) else txs[i])
  }

  function WithStatus(db: DbState, id: string, status: TransactionStatus): DbState
  {
    db.(transactions := SetStatus(db.transactions, id, status))
  }

  /** Publishing an SMS to the user: appends it to the outbox, addressed to their phone number. */
  function Send(db: DbState, user: UserRow, message: SmsBody): DbState
  {
    db.(outbox := db.outbox + [Sms(user.phoneNumber, message)])
  }

  /** The row `insertQuote` writes: the fee is never set and the creation time is the database's clock. */
  function StoredQuote(user: UserRow, tx: TransactionRow, quote: QuoteMsg, now: int): (row: QuoteRow)
    ensures row.fee.None?
    ensures row.id == quote.meta.id && row.userId == user.id && row.transactionId == tx.id
    ensures row.exchangeId == quote.meta.exchangeId && row.pfiDid == quote.meta.from
    ensures row.payinAmount == quote.data.payinAmount && row.payinCurrency == quote.data.payinCurrency
    ensures row.payoutAmount == Some(quote.data.payoutAmount) && row.payoutCurrency == Some(quote.data.payoutCurrency)
    ensures row.expiresAt == Some(quote.data.expiresAt) && row.createdAt == now
  {
    QuoteRow(
      quote.meta.id, user.id, tx.id, quote.meta.exchangeId, quote.meta.from,
      quote.data.payinAmount, quote.data.payinCurrency,
      None, Some(quote.data.expiresAt), Some(quote.data.payoutAmount), Some(quote.data.payoutCurrency),
      now)
  }

  /** Every row with the id gets the new status; nothing else in any row changes and no row is added or removed. */
  lemma SetStatusChanges(txs: seq<TransactionRow>, id: string, status: TransactionStatus)
    ensures var r := SetStatus(txs, id, status);
            |r| == |txs|
            && (forall i :: 0 <= i < |txs| ==> r[i].(status := txs[i].status) == txs[i])
            && (forall i :: 0 <= i < |txs| ==> r[i].status == if txs[i].id == id then status else txs[i].status)
  {
  }

  /** After a status update, the row is found with the new status; other rows are found as before. */
  lemma {:induction false} FindAfterSetStatus(txs: seq<TransactionRow>, id: string, status: TransactionStatus, other: string)
    ensures Seqs.Find(SetStatus(txs, id, status), TxIdIs(other))
         == match Seqs.Find(txs, TxIdIs(other))
            case None => None
            case Some(t) => Some(if other == id then t.(status := status) else t)
    decreases |txs|
  {
    if |txs| > 0 {
      assert SetStatus(txs, id, status)[1..] == SetStatus(txs[1..], id, status);
      FindAfterSetStatus(txs[1..], id, status, other);
    }
  }

  lemma FindTransactionAfterStatus(db: DbState, id: string, status: TransactionStatus, other: string)
    ensures FindTransaction(WithStatus(db, id, status), other)
         == match FindTransaction(db, other)
            case None => None
            case Some(t) => Some(if other == id then t.(status := status) else t)
  {
    FindAfterSetStatus(db.transactions, id, status, other);
  }

  /** A fresh notification is found after it is inserted, and is not found before. */
  lemma NotificationAfterInsert(db: DbState, n: NotificationRow, other: string)
    requires FindNotification(db, n.id).None?
    ensures FindNotification(db.(notifications := db.notifications + [n]), n.id) == Some(n)
    ensures other != n.id ==>
              FindNotification(db.(notifications := db.notifications + [n]), other) == FindNotification(db, other)
  {
    Seqs.FindAppend(db.notifications, [n], NotificationIdIs(n.id));
    Seqs.FindAppend(db.notifications, [n], NotificationIdIs(other));
  }

  /** A fresh quote is found after it is inserted. */
  lemma QuoteAfterInsert(db: DbState, q: QuoteRow)
    requires FindQuote(db, q.id).None?
    ensures FindQuote(db.(quotes := db.quotes + [q]), q.id) == Some(q)
  {
    Seqs.FindAppend(db.quotes, [q], QuoteIdIs(q.id));
  }

  /** Inserts guarded by their primary key, and status updates, keep every key unique. */
  lemma KeyedPreserved(db: DbState, q: QuoteRow, n: NotificationRow, id: string, status: TransactionStatus)
    requires Keyed(db)
    ensures Keyed(WithStatus(db, id, status))
    ensures FindQuote(db, q.id).None? ==> Keyed(db.(quotes := db.quotes + [q]))
    ensures FindNotification(db, n.id).None? ==> Keyed(db.(notifications := db.notifications + [n]))
  {
    var txs := SetStatus(db.transactions, id, status);
    forall i | 0 <= i < |txs| ensures txs[i].id == db.transactions[i].id {
      assert txs[i].(status := db.transactions[i].status) == db.transactions[i];
    }
    if FindQuote(db, q.id).None? {
      var qs := db.quotes + [q];
      forall i, j | 0 <= i < j < |qs| ensures qs[i].id != qs[j].id {
        if j == |db.quotes| { assert qs[i] in db.quotes; }
      }
    }
    if FindNotification(db, n.id).None? {
      var ns := db.notifications + [n];
      forall i, j | 0 <= i < j < |ns| ensures ns[i].id != ns[j].id {
        if j == |db.notifications| { assert ns[i] in db.notifications; }
      }
    }
  }

  /** The transaction rows with their status blanked out: what a status update must leave alone. */
  function WithoutStatus(txs: seq<TransactionRow>): (r: seq<TransactionRow>)
    ensures |r| == |txs|
  {
    seq(|txs|, i requires 0 <= i < |txs| => txs[i].(status := Pending))
  }

  /**
   * What the exchange triggers may do to the database: users are untouched, transaction
   * rows keep everything but their status, and every other table and the outbox only grow.
   */
  ghost predicate Grows(a: DbState, b: DbState)
  {
    b.users == a.users
    && WithoutStatus(b.transactions) == WithoutStatus(a.transactions)
    && a.quotes <= b.quotes && a.notifications <= b.notifications && a.credits <= b.credits
    && a.wallet <= b.wallet && a.ratings <= b.ratings && a.outbox <= b.outbox
  }

  /** Every SMS appended between the two states is addressed to `phoneNumber`. */
  ghost predicate SentOnlyTo(a: DbState, b: DbState, phoneNumber: string)
  {
    forall i :: |a.outbox| <= i < |b.outbox| ==> b.outbox[i].to == phoneNumber
  }

  lemma GrowsTrans(a: DbState, b: DbState, c: DbState, phoneNumber: string)
    requires Grows(a, b) && Grows(b, c)
    requires SentOnlyTo(a, b, phoneNumber) && SentOnlyTo(b, c, phoneNumber)
    ensures Grows(a, c) && SentOnlyTo(a, c, phoneNumber)
  {
    forall i | |a.outbox| <= i < |c.outbox| ensures c.outbox[i].to == phoneNumber {
      if i < |b.outbox| {
        assert c.outbox[i] == b.outbox[i];
      }
    }
  }

  lemma GrowsByStatus(db: DbState, id: string, status: TransactionStatus)
    ensures Grows(db, WithStatus(db, id, status)) && WithStatus(db, id, status).outbox == db.outbox
  {
    var txs := SetStatus(db.transactions, id, status);
    assert forall i :: 0 <= i < |txs| ==> WithoutStatus(txs)[i] == WithoutStatus(db.transactions)[i];
  }

  /** The mutable database: one field per table, plus the SMS outbox. */
  class Store {
    var users: seq<UserRow>
    var transactions: seq<TransactionRow>
    var quotes: seq<QuoteRow>
    var notifications: seq<NotificationRow>
    var credits: seq<CreditEntry>
    var wallet: seq<WalletEntry>
    var ratings: seq<RatingRow>
    var outbox: seq<Sms>

    function Model(): DbState
      reads this
    {
      DbState(users, transactions, quotes, notifications, credits, wallet, ratings, outbox)
    }

    constructor (initial: DbState)
      ensures Model() == initial
    {
      users := initial.users;
      transactions := initial.transactions;
      quotes := initial.quotes;
      notifications := initial.notifications;
      credits := initial.credits;
      wallet := initial.wallet;
      ratings := initial.ratings;
      outbox := initial.outbox;
    }

    /** `insertQuote`: rejected, changing nothing, when the id is taken. */
    method InsertQuote(row: QuoteRow) returns (ok: bool)
      modifies this
      ensures ok <==> FindQuote(old(Model()), row.id).None?
      ensures Model() == if ok then old(Model()).(quotes := old(quotes) + [row]) else old(Model())
    {
      ok := FindQuote(Model(), row.id).None?;
      if ok {
        quotes := quotes + [row];
      }
    }

    /** `updateTransactionStatus`. */
    method UpdateTransactionStatus(id: string, status: TransactionStatus)
      modifies this
      ensures Model() == WithStatus(old(Model()), id, status)
    {
      transactions := SetStatus(transactions, id, status);
    }

    /** `insertNotification`: rejected, changing nothing, when the id is taken. */
    method InsertNotification(n: NotificationRow) returns (ok: bool)
      modifies this
      ensures ok <==> FindNotification(old(Model()), n.id).None?
      ensures Model() == if ok then old(Model()).(notifications := old(notifications) + [n]) else old(Model())
    {
      ok := FindNotification(Model(), n.id).None?;
      if ok {
        notifications := notifications + [n];
      }
    }

    method AddCreditEntry(userId: string, amount: int, reference: Option<string>)
      modifies this
      ensures Model() == old(Model()).(credits := old(credits) + [CreditEntry(userId, amount, reference)])
    {
      credits := credits + [CreditEntry(userId, amount, reference)];
    }

    method InsertWalletEntry(entry: WalletEntry)
      modifies this
      ensures Model() == old(Model()).(wallet := old(wallet) + [entry])
    {
      wallet := wallet + [entry];
    }

    method InsertRating(rating: RatingRow)
      modifies this
      ensures Model() == old(Model()).(ratings := old(ratings) + [rating])
    {
      ratings := ratings + [rating];
    }

    method Publish(user: UserRow, message: SmsBody)
      modifies this
      ensures Model() == Send(old(Model()), user, message)
    {
      outbox := outbox + [Sms(user.phoneNumber, message)];
    }
  }
}
