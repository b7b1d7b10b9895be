/**
 * The handler of the SMS replies users send to the shortcode: accepting ("1") or rejecting
 * ("0") the quote of their latest transaction, and rating a completed one from 1 to 5.
 *
 * What the tbDEX client does with the order or close the handler creates (signing it with
 * the user's DID and submitting it to the PFI) is a parameter, `Submission`.
 */
module SmsReplies {
  import opened Wrappers
  import opened Text
  import opened Schema
  import opened Messages
  import opened Sms
  import opened Db
  import opened Triggers
  import TriggerLemmas

  /** The fields of the gateway's notification the handler reads. */
  datatype InboundSms = InboundSms(text: string, from: string, to: string)

  /** The id the created order or close gets, and whether signing and submitting it succeeded. */
  datatype Submission = Submission(messageId: string, accepted: bool)

  /** The HTTP status of every answer of the handler. */
  const Received := 200
  const CancelReason := "User cancelled transaction"
  const AcceptReply := "1"
  const RejectReply := "0"

  /** The order the handler submits for an accepted quote. */
  function OrderFor(user: UserRow, quote: QuoteRow, submission: Submission, now: int): (order: OrderMsg)
    ensures order.meta.exchangeId == quote.exchangeId && order.meta.from == user.did
  {
    OrderMsg(Metadata(submission.messageId, quote.exchangeId, user.did, now))
  }

  /** The close the handler submits for a rejected quote. */
  function CancelFor(user: UserRow, quote: QuoteRow, submission: Submission, now: int): (close: CloseMsg)
    ensures close.meta.exchangeId == quote.exchangeId && close.meta.from == user.did
    ensures close.success == Some(false) && close.reason == Some(CancelReason)
    ensures CloseStatus(close) == Cancelled
  {
    CloseMsg(Metadata(submission.messageId, quote.exchangeId, user.did, now), Some(false), Some(CancelReason))
  }

  /** `parseInt` of the reply, when it lies in 1..5. */
  function ValidRating(text: string): (r: Option<int>)
    ensures r.Some? <==> ParseInt(text).Some? && 1 <= ParseInt(text).value <= 5
    ensures r.Some? ==> r == ParseInt(text)
  {
    match ParseInt(text)
    case None => None
    case Some(n) => if n < 1 || n > 5 then None else Some(n)
  }

  /** `submitOrder`: announce, submit, then run the order trigger; any failure is reported by SMS. */
  function SubmitOrderSpec(db: DbState, user: UserRow, tx: TransactionRow, quote: QuoteRow, submission: Submission, now: int): DbState
  {
    var db1 := Send(db, user, OrderProcessingBody(tx.id));
    if !submission.accepted then Send(db1, user, OrderFailedBody(tx.id))
    else
      var r := OrderStep(db1, user, tx, [OrderFor(user, quote, submission, now)]);
      if r.outcome.Threw? then Send(r.db, user, OrderFailedBody(tx.id)) else r.db
  }

  /** `cancelTransaction`: announce, submit the close, then run the close trigger without quotes. */
  function CancelSpec(db: DbState, user: UserRow, tx: TransactionRow, quote: QuoteRow, submission: Submission, now: int): DbState
  {
    var db1 := Send(db, user, CancelProcessingBody(tx.id));
    if !submission.accepted then Send(db1, user, CancelFailedBody(tx.id))
    else
      var r := CloseStep(db1, user, tx, [CancelFor(user, quote, submission, now)], None);
      if r.outcome.Threw? then Send(r.db, user, CancelFailedBody(tx.id)) else r.db
  }

  /** `handleQuoteResponse`, at time `now`. */
  function QuoteReplySpec(db: DbState, user: UserRow, tx: TransactionRow, text: string, submission: Submission, now: int): DbState
  {
    match LatestQuote(db, tx.id)
    case None => db
    case Some(quote) =>
      if quote.expiresAt.Some? && quote.expiresAt.value < now then Send(db, user, QuoteExpiredBody(tx.id))
      else if text == AcceptReply then SubmitOrderSpec(db, user, tx, quote, submission, now)
      else if text == RejectReply then CancelSpec(db, user, tx, quote, submission, now)
      else Send(db, user, InvalidQuoteReplyBody)
  }

  /** `handleRateTransactionResponse`. */
  function RatingSpec(db: DbState, user: UserRow, tx: TransactionRow, text: string): DbState
  {
    match ValidRating(text)
    case None => Send(db, user, InvalidRatingBody)
    case Some(rating) =>
      if HasRating(db, tx.id) then db
      else Send(db.(ratings := db.ratings + [RatingRow(tx.id, rating)]), user, RatingThanksBody)
  }

  /** `handleSMSNotification`: only the sender's most recent transaction is acted on. */
  function HandleSpec(db: DbState, shortcode: string, sms: InboundSms, submission: Submission, now: int): DbState
  {
    if sms.to != shortcode then db
    else match FindUserByPhone(db, sms.from)
      case None => db
      case Some(user) =>
        match LatestTransactionOf(db, user.id)
        case None => db
        case Some(tx) =>
          if tx.status == Quote then QuoteReplySpec(db, user, tx, sms.text, submission, now)
          else if tx.status == Complete then RatingSpec(db, user, tx, sms.text)
          else db
  }

  // ---------------------------------------------------------------- the handler on the store

  /** `handleSMSNotification`; it always answers 200. */
  method HandleSmsNotification(store: Store, shortcode: string, sms: InboundSms, submission: Submission, now: int)
    returns (status: int)
    modifies store
    ensures status == Received
    ensures store.Model() == HandleSpec(old(store.Model()), shortcode, sms, submission, now)
  {
    status := Received;
    if sms.to != shortcode {
      return;
    }
    var user := FindUserByPhone(store.Model(), sms.from);
    if user.None? {
      return;
    }
    var tx := LatestTransactionOf(store.Model(), user.value.id);
    if tx.None? {
      return;
    }
    if tx.value.status == Quote {
      HandleQuoteResponse(store, user.value, tx.value, sms.text, submission, now);
    } else if tx.value.status == Complete {
      HandleRateTransactionResponse(store, user.value, tx.value, sms.text);
    }
  }

  method HandleQuoteResponse(store: Store, user: UserRow, tx: TransactionRow, text: string, submission: Submission, now: int)
    modifies store
    ensures store.Model() == QuoteReplySpec(old(store.Model()), user, tx, text, submission, now)
  {
    var quote := LatestQuote(store.Model(), tx.id);
    if quote.None? {
      return;
    }
    if quote.value.expiresAt.Some? && quote.value.expiresAt.value < now {
      store.Publish(user, QuoteExpiredBody(tx.id));
      return;
    }
    if text == AcceptReply {
      SubmitOrder(store, user, tx, quote.value, submission, now);
    } else if text == RejectReply {
      CancelTransaction(store, user, tx, quote.value, submission, now);
    } else {
      store.Publish(user, InvalidQuoteReplyBody);
    }
  }

  method SubmitOrder(store: Store, user: UserRow, tx: TransactionRow, quote: QuoteRow, submission: Submission, now: int)
    modifies store
    ensures store.Model() == SubmitOrderSpec(old(store.Model()), user, tx, quote, submission, now)
  {
    store.Publish(user, OrderProcessingBody(tx.id));
    if !submission.accepted {
      store.Publish(user, OrderFailedBody(tx.id));
      return;
    }
    var outcome := ProcessOrder(store, user, tx, [OrderFor(user, quote, submission, now)]);
    if outcome.Threw? {
      store.Publish(user, OrderFailedBody(tx.id));
    }
  }

  method CancelTransaction(store: Store, user: UserRow, tx: TransactionRow, quote: QuoteRow, submission: Submission, now: int)
    modifies store
    ensures store.Model() == CancelSpec(old(store.Model()), user, tx, quote, submission, now)
  {
    store.Publish(user, CancelProcessingBody(tx.id));
    if !submission.accepted {
      store.Publish(user, CancelFailedBody(tx.id));
      return;
    }
    var outcome := ProcessClose(store, user, tx, [CancelFor(user, quote, submission, now)], None);
    if outcome.Threw? {
      store.Publish(user, CancelFailedBody(tx.id));
    }
  }

  method HandleRateTransactionResponse(store: Store, user: UserRow, tx: TransactionRow, text: string)
    modifies store
    ensures store.Model() == RatingSpec(old(store.Model()), user, tx, text)
  {
    var rating := ValidRating(text);
    if rating.None? {
      store.Publish(user, InvalidRatingBody);
      return;
    }
    if HasRating(store.Model(), tx.id) {
      return;
    }
    store.InsertRating(RatingRow(tx.id, rating.value));
    store.Publish(user, RatingThanksBody);
  }

  // ---------------------------------------------------------------- what the handler keeps

  /** The handler acts only on an SMS to the shortcode from a known user whose latest transaction is quoted or complete. */
  lemma HandlerActsOnLatest(db: DbState, shortcode: string, sms: InboundSms, submission: Submission, now: int)
    ensures HandleSpec(db, shortcode, sms, submission, now) != db ==>
              sms.to == shortcode && FindUserByPhone(db, sms.from).Some?
              && var tx := LatestTransactionOf(db, FindUserByPhone(db, sms.from).value.id);
                 tx.Some? && (tx.value.status == Quote || tx.value.status == Complete)
  {
  }

  /** A reply that does not submit anything (no live quote, an unknown reply, a failed submission) only sends SMS, at most two. */
  lemma QuoteReplyWithoutSubmission(db: DbState, user: UserRow, tx: TransactionRow, text: string, submission: Submission, now: int)
    requires match LatestQuote(db, tx.id)
             case None => true
             case Some(q) => (q.expiresAt.Some? && q.expiresAt.value < now)
                             || (text != AcceptReply && text != RejectReply) || !submission.accepted
    ensures var r := QuoteReplySpec(db, user, tx, text, submission, now);
            r == db.(outbox := r.outbox) && db.outbox <= r.outbox && |r.outbox| <= |db.outbox| + 2
  {
  }

  /**
   * Rejecting a live quote, once the close is accepted, cancels the transaction and tells the
   * user so, after the "being processed" notice; the reason given to the PFI is not repeated.
   */
  lemma RejectCancels(db: DbState, user: UserRow, tx: TransactionRow, submission: Submission, now: int,
                      quote: QuoteRow, stored: TransactionRow)
    requires tx.status == Quote && submission.accepted
    requires LatestQuote(db, tx.id) == Some(quote) && !(quote.expiresAt.Some? && quote.expiresAt.value < now)
    requires FindTransaction(db, tx.id) == Some(stored)
    ensures var r := QuoteReplySpec(db, user, tx, RejectReply, submission, now);
            FindTransaction(r, tx.id) == Some(stored.(status := Cancelled))
            && r.wallet == db.wallet && r.credits == db.credits
            && r.outbox == db.outbox + [Sms(user.phoneNumber, CancelProcessingBody(tx.id)),
                                        Sms(user.phoneNumber, CloseBody(tx.id, false, None))]
  {
    var db1 := Send(db, user, CancelProcessingBody(tx.id));
    var close := CancelFor(user, quote, submission, now);
    TriggerLemmas.CloseStepCloses(db1, user, tx, [close], None, stored);
    var r := CloseStep(db1, user, tx, [close], None);
    assert r.outcome == Done;
    assert r.db.outbox == db1.outbox + [Sms(user.phoneNumber, CloseBody(tx.id, false, None))];
  }

  /**
   * Accepting a live quote, once the order is accepted, places the order: a Regular
   * transaction is charged one credit, or cancelled when the user has none left.
   */
  lemma AcceptOrders(db: DbState, user: UserRow, tx: TransactionRow, submission: Submission, now: int,
                     quote: QuoteRow, stored: TransactionRow)
    requires tx.status == Quote && submission.accepted
    requires LatestQuote(db, tx.id) == Some(quote) && !(quote.expiresAt.Some? && quote.expiresAt.value < now)
    requires FindTransaction(db, tx.id) == Some(stored)
    ensures var r := QuoteReplySpec(db, user, tx, AcceptReply, submission, now);
            var broke := tx.txType == Regular && Balance(db, user.id) < 1;
            FindTransaction(r, tx.id) == Some(stored.(status := if broke then Cancelled else Order))
            && r.credits == db.credits + (if !broke && tx.txType == Regular then [CreditEntry(user.id, -1, Some("Order placed: " + tx.id))] else [])
            && db.outbox + [Sms(user.phoneNumber, OrderProcessingBody(tx.id))] <= r.outbox
  {
    var db1 := Send(db, user, OrderProcessingBody(tx.id));
    var orders := [OrderFor(user, quote, submission, now)];
    assert Balance(db1, user.id) == Balance(db, user.id);
    if tx.txType == Regular && Balance(db, user.id) < 1 {
      TriggerLemmas.OrderStepInsufficient(db1, user, tx, orders, stored);
    } else {
      TriggerLemmas.OrderStepPlaces(db1, user, tx, orders, stored);
      assert LatestQuote(db1, tx.id).Some?;
    }
    TriggerLemmas.OrderStepGrows(db1, user, tx, orders);
  }

  /** At most one rating per transaction. */
  ghost predicate OneRatingEach(db: DbState)
  {
    forall i, j :: 0 <= i < j < |db.ratings| ==> db.ratings[i].transactionId != db.ratings[j].transactionId
  }

  /** The handler keeps at most one rating per transaction. */
  lemma HandlerKeepsOneRating(db: DbState, shortcode: string, sms: InboundSms, submission: Submission, now: int)
    requires OneRatingEach(db)
    ensures OneRatingEach(HandleSpec(db, shortcode, sms, submission, now))
  {
    var r := HandleSpec(db, shortcode, sms, submission, now);
    if sms.to == shortcode && FindUserByPhone(db, sms.from).Some? {
      var user := FindUserByPhone(db, sms.from).value;
      var tx := LatestTransactionOf(db, user.id);
      if tx.Some? && tx.value.status == Quote {
        QuoteReplyKeepsRatings(db, user, tx.value, sms.text, submission, now);
      } else if tx.Some? && tx.value.status == Complete {
        RatingKeepsOneRating(db, user, tx.value, sms.text);
      }
    }
  }

  lemma RatingKeepsOneRating(db: DbState, user: UserRow, tx: TransactionRow, text: string)
    requires OneRatingEach(db)
    ensures OneRatingEach(RatingSpec(db, user, tx, text))
  {
    if ValidRating(text).Some? && !HasRating(db, tx.id) {
      var rs := db.ratings + [RatingRow(tx.id, ValidRating(text).value)];
      forall i, j | 0 <= i < j < |rs| ensures rs[i].transactionId != rs[j].transactionId {
        if j == |db.ratings| {
          assert rs[i] in db.ratings;
        }
      }
    }
  }

  /** Quote replies never touch the ratings. */
  lemma QuoteReplyKeepsRatings(db: DbState, user: UserRow, tx: TransactionRow, text: string, submission: Submission, now: int)
    ensures QuoteReplySpec(db, user, tx, text, submission, now).ratings == db.ratings
  {
    match LatestQuote(db, tx.id)
    case None =>
    case Some(quote) =>
      var db1 := Send(db, user, OrderProcessingBody(tx.id));
      TriggerLemmas.OrderStepGrows(db1, user, tx, [OrderFor(user, quote, submission, now)]);
      OrderStepKeepsRatings(db1, user, tx, [OrderFor(user, quote, submission, now)]);
      var db2 := Send(db, user, CancelProcessingBody(tx.id));
      CloseStepKeepsRatings(db2, user, tx, [CancelFor(user, quote, submission, now)], None);
  }

  lemma OrderStepKeepsRatings(db: DbState, user: UserRow, tx: TransactionRow, orders: seq<OrderMsg>)
    ensures OrderStep(db, user, tx, orders).db.ratings == db.ratings
  {
    if |orders| > 0 && tx.status == Quote && !(Balance(db, user.id) < 1 && tx.txType == Regular) {
      var db1 := Charge(WithStatus(db, tx.id, Order), user, tx);
      assert db1.ratings == db.ratings;
      assert OrderReloaded(db1, user, tx).db.ratings == db1.ratings;
    }
  }

  lemma CloseStepKeepsRatings(db: DbState, user: UserRow, tx: TransactionRow, closes: seq<CloseMsg>, quotes: Option<seq<QuoteMsg>>)
    ensures CloseStep(db, user, tx, closes, quotes).db.ratings == db.ratings
  {
    if |closes| > 0 && (tx.status == Order || tx.status == Quote) {
      var db1 := WithStatus(db, tx.id, CloseStatus(closes[0]));
      match FindTransaction(db1, tx.id)
      case None =>
      case Some(updated) =>
        var isCancelled := closes[0].success == Some(false);
        assert CloseNotify(db1, user, tx, updated, isCancelled).ratings == db1.ratings;
    }
  }

  /** Once a valid rating is in, a second rating reply adds no rating row. */
  lemma SecondRatingIgnored(db: DbState, user: UserRow, tx: TransactionRow, first: string, second: string)
    requires ValidRating(first).Some?
    ensures var db1 := RatingSpec(db, user, tx, first);
            HasRating(db1, tx.id) && RatingSpec(db1, user, tx, second).ratings == db1.ratings
  {
    var db1 := RatingSpec(db, user, tx, first);
    if !HasRating(db, tx.id) {
      assert db1.ratings[|db.ratings|] == RatingRow(tx.id, ValidRating(first).value);
    }
  }

  /** The digits 1 to 5, with any non-digit text after them, are the valid ratings of that value; other numbers are not. */
  lemma RatingOfDigits(n: nat, rest: string)
    requires |rest| == 0 || !IsDigit(rest[0])
    requires n == 0 && |rest| > 0 ==> rest[0] != 'x' && rest[0] != 'X'
    ensures ValidRating(NatToString(n) + rest) == if 1 <= n <= 5 then Some(n) else None
  {
    ParseIntOfNat(n, rest);
  }
}
